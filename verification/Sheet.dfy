/** The line on the Touch ID sheet (daemon/src/agent.rs). The action it would name is an
    arbitrary text: it comes from another process's arguments. */
module Sheet {
  import opened Basics
  import opened Seconds
  import opened Approval

  const PROMPT_MAX := 56

  /** Quotes, backticks and control characters that turn the sheet into noise. */
  predicate IsNoise(c: char) {
    c in {'`', '"', '\'', '\n', '\r', '\t'}
  }

  /** White space as Unicode has it. */
  predicate IsSpace(c: char) {
    var n := c as int;
    9 <= n <= 13 || n == 0x20 || n == 0x85 || n == 0xA0 || n == 0x1680 || 0x2000 <= n <= 0x200A
    || n == 0x2028 || n == 0x2029 || n == 0x202F || n == 0x205F || n == 0x3000
  }

  predicate Breaks(c: char) {
    IsNoise(c) || IsSpace(c)
  }

  /** The characters a line is broken at: Unicode's white space, quotes and backticks. */
  lemma BreakingCharacters(c: char)
    ensures Breaks(c) <==>
      || c in {'`', '"', '\'', ' ', '\t', '\n', '\r', '\U{0b}', '\U{0c}', '\U{85}', '\U{a0}', '\U{1680}'}
      || c in {'\U{2000}', '\U{2001}', '\U{2002}', '\U{2003}', '\U{2004}', '\U{2005}', '\U{2006}', '\U{2007}', '\U{2008}'}
      || c in {'\U{2009}', '\U{200a}', '\U{2028}', '\U{2029}', '\U{202f}', '\U{205f}', '\U{3000}'}
  {
  }

  // ---- sanitising

  function Denoised(s: string): string {
    seq(|s|, i requires 0 <= i < |s| => if IsNoise(s[i]) then ' ' else s[i])
  }

  function WordEnd(s: string, i: nat): (j: nat)
    requires i <= |s|
    ensures i <= j <= |s| && (forall k | i <= k < j :: !IsSpace(s[k])) && (j < |s| ==> IsSpace(s[j]))
    decreases |s| - i
  {
    if i < |s| && !IsSpace(s[i]) then WordEnd(s, i + 1) else i
  }

  /** The runs of characters between white space. */
  function Words(s: string): (words: seq<string>)
    decreases |s|
  {
    if s == "" then []
    else if IsSpace(s[0]) then Words(s[1..])
    else var j := WordEnd(s, 0); [s[..j]] + Words(s[j..])
  }

  function Join(words: seq<string>): string {
    if words == [] then ""
    else if |words| == 1 then words[0]
    else words[0] + " " + Join(words[1..])
  }

  function Sanitise(s: string): string {
    Join(Words(Denoised(s)))
  }

  /** A word: something, and nothing that would break a line or look like a quotation. */
  predicate Word(w: string) {
    w != "" && forall k | 0 <= k < |w| :: !Breaks(w[k])
  }

  predicate AllWords(words: seq<string>) {
    forall k | 0 <= k < |words| :: Word(words[k])
  }

  /** One line: no noise, and white space only as single spaces inside. */
  predicate OneLine(s: string) {
    && (forall k | 0 <= k < |s| :: !Breaks(s[k]) || s[k] == ' ')
    && (forall k | 0 <= k < |s| && s[k] == ' ' :: 0 < k < |s| - 1 && s[k + 1] != ' ')
  }

  predicate Quiet(s: string) {
    forall k | 0 <= k < |s| ::
      s[k] != '`' && s[k] != '"' && s[k] != '\'' && s[k] != '\n' && s[k] != '\r' && s[k] != '\t'
  }

  lemma {:induction false} WordsAreWords(s: string)
    requires forall k | 0 <= k < |s| :: !Breaks(s[k]) || IsSpace(s[k])
    ensures AllWords(Words(s))
    decreases |s|
  {
    if s != "" {
      var j := WordEnd(s, 0);
      if IsSpace(s[0]) {
        WordsAreWords(s[1..]);
      } else {
        WordsAreWords(s[j..]);
        assert Word(s[..j]);
      }
    }
  }

  lemma {:induction false} JoinIsOneLine(words: seq<string>)
    requires AllWords(words)
    ensures OneLine(Join(words)) && (Join(words) != "" ==> Join(words)[0] != ' ')
  {
    if |words| > 1 {
      JoinIsOneLine(words[1..]);
      assert words[1..] != [] && Word(words[1]);
      assert Join(words[1..]) != "";
    }
  }

  /** Whatever another process is called or was asked to do, it is one quiet line. */
  lemma SanitisedIsOneLine(s: string)
    ensures OneLine(Sanitise(s)) && Quiet(Sanitise(s))
  {
    WordsAreWords(Denoised(s));
    JoinIsOneLine(Words(Denoised(s)));
  }

  /** A text that is one line already comes through as it is. */
  lemma {:induction false} SanitiseKeeps(words: seq<string>)
    requires AllWords(words)
    ensures Words(Join(words)) == words
  {
    if words != [] {
      var s := Join(words);
      var w := words[0];
      var j := WordEnd(s, 0);
      if |words| == 1 {
        assert s == w && j == |w| && s[..j] == w && s[j..] == "";
      } else {
        var rest := Join(words[1..]);
        assert s == w + (" " + rest);
        assert s[|w|] == ' ' && forall k | 0 <= k < |w| :: s[k] == w[k];
        assert j == |w| && s[..j] == w && s[j..] == " " + rest;
        assert (" " + rest)[1..] == rest;
        SanitiseKeeps(words[1..]);
      }
    }
  }

  /** Sanitising twice is sanitising once. */
  lemma SanitiseTwice(s: string)
    ensures Sanitise(Sanitise(s)) == Sanitise(s)
  {
    var t := Sanitise(s);
    SanitisedIsOneLine(s);
    assert Denoised(t) == t;
    WordsAreWords(Denoised(s));
    SanitiseKeeps(Words(Denoised(s)));
  }

  lemma {:induction false} WordsSplit(a: string, gap: char, b: string)
    requires IsSpace(gap)
    ensures Words(a + [gap] + b) == Words(a) + Words(b)
    decreases |a|
  {
    var s := a + [gap] + b;
    if a == "" {
      assert s[1..] == b;
    } else if IsSpace(a[0]) {
      WordsSplit(a[1..], gap, b);
      assert s[1..] == a[1..] + [gap] + b;
    } else {
      var j := WordEnd(a, 0);
      assert s[j] == (if j < |a| then a[j] else gap);
      assert forall k | 0 <= k < j :: s[k] == a[k];
      assert WordEnd(s, 0) == j;
      WordsSplit(a[j..], gap, b);
      assert s[..j] == a[..j] && s[j..] == a[j..] + [gap] + b;
    }
  }

  /** Two lines on one: a space between, if there is something on both sides. */
  function Beside(a: string, b: string): string {
    if a == "" then b else if b == "" then a else a + " " + b
  }

  lemma {:induction false} JoinBeside(a: seq<string>, b: seq<string>)
    requires AllWords(a) && AllWords(b)
    ensures Join(a + b) == Beside(Join(a), Join(b))
  {
    if a == [] {
      assert a + b == b;
    } else {
      assert (a + b)[1..] == a[1..] + b;
      assert AllWords(a[1..]);
      JoinBeside(a[1..], b);
      assert b == [] ==> a + b == a;
      JoinedIsSomething(b);
      JoinedIsSomething(a[1..]);
      assert a[0] + " " + (Join(a[1..]) + " " + Join(b)) == a[0] + " " + Join(a[1..]) + " " + Join(b);
    }
  }

  lemma JoinedIsSomething(words: seq<string>)
    requires AllWords(words)
    ensures Join(words) == "" <==> words == []
  {
    assert words != [] ==> Word(words[0]);
  }

  /** A text is put on one line word by word: nothing in a word is changed ... */
  lemma SanitisedWord(w: string)
    requires forall k | 0 <= k < |w| :: !Breaks(w[k])
    ensures Sanitise(w) == w
  {
    assert Denoised(w) == w;
    if w != "" {
      assert WordEnd(w, 0) == |w| && w[..|w|] == w && w[|w|..] == "";
      assert Words(w) == [w];
    }
  }

  /** ... and whatever breaks a text in two leaves the two halves a space apart. Between them
      these say what becomes of any text. */
  lemma SanitisedGap(a: string, gap: char, b: string)
    requires Breaks(gap)
    ensures Sanitise(a + [gap] + b) == Beside(Sanitise(a), Sanitise(b))
  {
    var gap' := if IsNoise(gap) then ' ' else gap;
    assert Denoised(a + [gap] + b) == Denoised(a) + [gap'] + Denoised(b);
    WordsSplit(Denoised(a), gap', Denoised(b));
    WordsAreWords(Denoised(a));
    WordsAreWords(Denoised(b));
    JoinBeside(Words(Denoised(a)), Words(Denoised(b)));
  }

  // ---- how long a sign-in lasts, in words

  function Decimal(n: nat): string {
    (if n < 10 then "" else Decimal(n / 10)) + [(n % 10 + '0' as int) as char]
  }

  function Pow10(k: nat): nat {
    if k == 0 then 1 else 10 * Pow10(k - 1)
  }

  lemma {:induction false} DecimalLength(n: nat, k: nat)
    requires k > 0 && n < Pow10(k)
    ensures |Decimal(n)| <= k
  {
    if n >= 10 {
      DecimalLength(n / 10, k - 1);
    }
  }

  lemma {:induction false} DecimalDigits(n: nat)
    ensures forall k | 0 <= k < |Decimal(n)| :: '0' <= Decimal(n)[k] <= '9'
  {
    if n >= 10 {
      DecimalDigits(n / 10);
    }
  }

  const U64 := 0x1_0000_0000_0000_0000

  lemma U64HasTwentyDigits()
    ensures U64 <= Pow10(20)
  {
    assert Pow10(4) == 10000 && Pow10(8) == 1_0000_0000;
    assert Pow10(12) == 1_0000_0000_0000 && Pow10(16) == 1_0000_0000_0000_0000;
  }

  /** Whole seconds: at least one, and no more than a u64 holds. */
  function WholeSeconds(secs: Float): (s: nat)
    ensures 1 <= s < U64
  {
    if secs.NaN? then 1
    else
      var rounded := (secs.v + 0.5).Floor;
      if rounded < 1 then 1 else if rounded >= U64 then U64 - 1 else rounded
  }

  datatype Unit = Day | Hour | Minute | Second

  function SecondsIn(u: Unit): nat {
    match u
    case Day => 86400
    case Hour => 3600
    case Minute => 60
    case Second => 1
  }

  function UnitName(u: Unit): string {
    match u
    case Day => "day"
    case Hour => "hour"
    case Minute => "minute"
    case Second => "second"
  }

  function UnitOf(s: nat): Unit {
    if s % 86400 == 0 && s > 86400 then Day
    else if s % 3600 == 0 then Hour
    else if s % 60 == 0 then Minute
    else Second
  }

  function Span(secs: Float): string {
    var s := WholeSeconds(secs);
    var n := s / SecondsIn(UnitOf(s));
    Decimal(n) + " " + UnitName(UnitOf(s)) + (if n == 1 then "" else "s")
  }

  /** A number in decimal, read back. */
  function ReadDecimal(text: string): nat {
    if text == "" then 0
    else ReadDecimal(text[..|text| - 1]) * 10 + DigitOf(text[|text| - 1])
  }

  function DigitOf(c: char): nat {
    if '0' <= c <= '9' then c as int - '0' as int else 0
  }

  lemma {:induction false} ReadDecimalBack(n: nat)
    ensures ReadDecimal(Decimal(n)) == n
  {
    var text := Decimal(n);
    assert text[|text| - 1] == (n % 10 + '0' as int) as char;
    if n >= 10 {
      ReadDecimalBack(n / 10);
      assert text[..|text| - 1] == Decimal(n / 10);
    } else {
      assert text[..|text| - 1] == "";
    }
  }

  lemma UnitsNest(s: nat)
    ensures s % 86400 == 0 ==> s % 3600 == 0
    ensures s % 3600 == 0 ==> s % 60 == 0
  {
    if s % 86400 == 0 {
      assert s == 3600 * (24 * (s / 86400));
    }
    if s % 3600 == 0 {
      assert s == 60 * (60 * (s / 3600));
    }
  }

  lemma UnitDivides(s: nat)
    requires s > 0
    ensures var u := UnitOf(s);
      && s == s / SecondsIn(u) * (match u case Day => 86400 case Hour => 3600 case Minute => 60 case Second => 1)
      && s / SecondsIn(u) > 0
  {
    match UnitOf(s)
    case Day => assert s == s / 86400 * 86400;
    case Hour => assert s == s / 3600 * 3600;
    case Minute => assert s == s / 60 * 60;
    case Second =>
  }

  lemma UnitIsLargest(s: nat)
    requires s > 0
    ensures var u := UnitOf(s);
      && (u == Day <==> s % 86400 == 0 && s != 86400)
      && (u == Hour <==> s % 3600 == 0 && (s % 86400 == 0 ==> s == 86400))
      && (u == Minute <==> s % 60 == 0 && s % 3600 != 0)
  {
    UnitsNest(s);
  }

  lemma {:induction false} DecimalHasNoLeadingZero(n: nat)
    requires n > 0
    ensures '1' <= Decimal(n)[0] <= '9'
  {
    if n >= 10 {
      DecimalHasNoLeadingZero(n / 10);
    }
  }

  /** `n` is the seconds rounded to the nearest whole one, a half up: at least one, and no more
      than a u64 holds. */
  lemma WholeSecondsAreNearest(secs: Float)
    ensures var n := WholeSeconds(secs);
      && (secs.Val? && 1.0 <= secs.v < (0x1_0000_0000_0000_0000 - 1) as real ==> n as real - 0.5 <= secs.v < n as real + 0.5)
      && (secs.NaN? || secs.v < 1.0 ==> n == 1)
      && (secs.Val? && secs.v >= (0x1_0000_0000_0000_0000 - 1) as real ==> n == 0x1_0000_0000_0000_0000 - 1)
  {
  }

  /** The text names a number and a unit that come to the seconds, rounded, in the largest
      unit that can; days begin at two, and the unit is in the singular exactly for one. */
  lemma SpanIsExact(secs: Float) returns (number: string, u: Unit, n: nat)
    ensures n == ReadDecimal(number) * (match u case Day => 86400 case Hour => 3600 case Minute => 60 case Second => 1)
    ensures secs.Val? && 1.0 <= secs.v < (0x1_0000_0000_0000_0000 - 1) as real ==> n as real - 0.5 <= secs.v < n as real + 0.5
    ensures secs.NaN? || secs.v < 1.0 ==> n == 1
    ensures secs.Val? && secs.v >= (0x1_0000_0000_0000_0000 - 1) as real ==> n == 0x1_0000_0000_0000_0000 - 1
    ensures Span(secs) ==
      number + (match u case Day => " day" case Hour => " hour" case Minute => " minute" case Second => " second")
      + (if number == "1" then "" else "s")
    ensures number != "" && '1' <= number[0] && forall k | 0 <= k < |number| :: '0' <= number[k] <= '9'
    ensures u == Day <==> n % 86400 == 0 && n != 86400
    ensures u == Hour <==> n % 3600 == 0 && (n % 86400 == 0 ==> n == 86400)
    ensures u == Minute <==> n % 60 == 0 && n % 3600 != 0
  {
    n := WholeSeconds(secs);
    u := UnitOf(n);
    var count := n / SecondsIn(u);
    number := Decimal(count);
    WholeSecondsAreNearest(secs);
    ReadDecimalBack(count);
    UnitDivides(n);
    UnitIsLargest(n);
    DecimalDigits(count);
    DecimalHasNoLeadingZero(count);
    OneIsSpelledOne(count);
    SpanText(secs);
  }

  lemma SpanText(secs: Float)
    ensures var s := WholeSeconds(secs);
      var n := s / SecondsIn(UnitOf(s));
      Span(secs) ==
        Decimal(n) + (match UnitOf(s) case Day => " day" case Hour => " hour" case Minute => " minute" case Second => " second")
        + (if n == 1 then "" else "s")
  {
    assert " " + UnitName(Day) == " day" && " " + UnitName(Hour) == " hour";
    assert " " + UnitName(Minute) == " minute" && " " + UnitName(Second) == " second";
    var s := WholeSeconds(secs);
    var n := s / SecondsIn(UnitOf(s));
    assert Decimal(n) + " " + UnitName(UnitOf(s)) == Decimal(n) + (" " + UnitName(UnitOf(s)));
  }

  lemma OneIsSpelledOne(n: nat)
    ensures Decimal(n) == "1" <==> n == 1
  {
    ReadDecimalBack(n);
    assert Decimal(1) == "1";
  }

  function EndsOnSheet(ends: Ends): string {
    match ends
    case After(secs) => "for " + Span(secs)
    case AtScreenLock(_) => "until screen lock"
  }

  lemma FewerThanSeconds(s: nat)
    ensures s / SecondsIn(UnitOf(s)) <= s
  {
    match UnitOf(s)
    case Day => assert s / 86400 <= s;
    case Hour => assert s / 3600 <= s;
    case Minute => assert s / 60 <= s;
    case Second =>
  }

  lemma CountFits(s: nat)
    requires s < U64
    ensures s / SecondsIn(UnitOf(s)) <= s && |Decimal(s / SecondsIn(UnitOf(s)))| <= 20
  {
    FewerThanSeconds(s);
    U64HasTwentyDigits();
    DecimalLength(s / SecondsIn(UnitOf(s)), 20);
  }

  lemma DecimalIsQuiet(n: nat)
    ensures Quiet(Decimal(n))
  {
    DecimalDigits(n);
  }

  lemma UnitsAreQuiet(u: Unit)
    ensures Quiet(UnitName(u)) && |UnitName(u)| <= 6
  {
  }

  lemma SpanIsShort(secs: Float)
    ensures |Span(secs)| <= 28 && Quiet(Span(secs))
  {
    var s := WholeSeconds(secs);
    var n := s / SecondsIn(UnitOf(s));
    CountFits(s);
    DecimalIsQuiet(n);
    UnitsAreQuiet(UnitOf(s));
    QuietJoin(Decimal(n), " ");
    QuietJoin(Decimal(n) + " ", UnitName(UnitOf(s)));
    QuietJoin(Decimal(n) + " " + UnitName(UnitOf(s)), if n == 1 then "" else "s");
  }

  lemma EndsAreShort(ends: Ends)
    ensures |EndsOnSheet(ends)| <= 32 && Quiet(EndsOnSheet(ends))
  {
    if ends.After? {
      SpanIsShort(ends.secs);
    }
  }

  // ---- the sheet

  function Shorten(s: string, n: nat): string {
    if |s| <= n then s else s[..n] + "\U{2026}"
  }

  /** The action, from whatever text describes it. */
  function PromptAction(raw: string): string {
    Shorten(Sanitise(raw), PROMPT_MAX)
  }

  function SheetReason(raw: string, app: Option<string>, configured: string, signIn: Option<string>): string {
    var chosen := if configured == "" then None else Some(Sanitise(configured));
    match signIn
    case Some(ends) =>
      var rest := match chosen case Some(text) => text case None => PromptAction(raw);
      Shorten(if rest == "" then "Sign in " + ends else "Sign in " + ends + " \U{00B7} " + rest, PROMPT_MAX)
    case None =>
      match chosen
      case Some(text) => Shorten(text, PROMPT_MAX)
      case None =>
        var action := PromptAction(raw);
        match app
        case Some(name) =>
          if |action| + |Sanitise(name)| + 3 <= PROMPT_MAX then action + " \U{00B7} " + Sanitise(name) else action
        case None => action
  }

  /** What the sheet says: a sign-in first, then the configured text if there is one, and
      otherwise the action, with the app's name after it only where no sign-in is opened and all
      of it fits in 56 characters. */
  lemma SheetSays(raw: string, app: Option<string>, configured: string, ends: Ends)
    ensures var action, text := Sanitise(raw), Sanitise(configured);
      var named := if |action| <= 56 then action else action[..56] + "\U{2026}";
      var rest := if configured == "" then named else text;
      var lead := "Sign in " + (if ends.After? then "for " + Span(ends.secs) else "until screen lock");
      var whole := if rest == "" then lead else lead + " \U{00B7} " + rest;
      && SheetReason(raw, app, configured, Some(EndsOnSheet(ends))) == (if |whole| <= 56 then whole else whole[..56] + "\U{2026}")
      && (configured != "" ==>
            SheetReason(raw, app, configured, None) == if |text| <= 56 then text else text[..56] + "\U{2026}")
      && (configured == "" && app.Some? && |named| + 3 + |Sanitise(app.value)| <= 56 ==>
            SheetReason(raw, app, configured, None) == named + " \U{00B7} " + Sanitise(app.value))
      && (configured == "" && (app.None? || |named| + 3 + |Sanitise(app.value)| > 56) ==>
            SheetReason(raw, app, configured, None) == named)
  {
  }

  lemma ShortenKeepsTheFront(s: string, n: nat, front: string)
    requires front <= s && |front| <= n
    ensures front <= Shorten(s, n)
  {
  }

  lemma ShortenIsShort(s: string, n: nat)
    ensures |Shorten(s, n)| <= n + 1
    ensures Quiet(s) ==> Quiet(Shorten(s, n))
  {
  }

  /** Whoever asks, whatever the config says and however long the sign-in: a sheet that opens
      one begins with the whole of it. */
  lemma SignInLeadsTheSheet(raw: string, app: Option<string>, configured: string, ends: Ends)
    ensures "Sign in " + (if ends.After? then "for " + Span(ends.secs) else "until screen lock")
         <= SheetReason(raw, app, configured, Some(EndsOnSheet(ends)))
  {
    EndsAreShort(ends);
    var lead := "Sign in " + EndsOnSheet(ends);
    var rest := if configured == "" then PromptAction(raw) else Sanitise(configured);
    ShortenKeepsTheFront(lead, PROMPT_MAX, lead);
    ShortenKeepsTheFront(lead + " \U{00B7} " + rest, PROMPT_MAX, lead);
  }

  lemma QuietJoin(a: string, b: string)
    requires Quiet(a) && Quiet(b)
    ensures Quiet(a + b)
  {
  }

  lemma ActionIsQuiet(raw: string)
    ensures Quiet(PromptAction(raw)) && |PromptAction(raw)| <= PROMPT_MAX + 1
  {
    SanitisedIsOneLine(raw);
    ShortenIsShort(Sanitise(raw), PROMPT_MAX);
  }

  /** Every sheet is one short quiet line: 56 characters and an ellipsis at most, and never
      a quote, a backtick or a newline. */
  lemma SheetIsShortAndQuiet(raw: string, app: Option<string>, configured: string, ends: Option<Ends>)
    ensures var sheet := SheetReason(raw, app, configured, match ends case None => None case Some(e) => Some(EndsOnSheet(e)));
      |sheet| <= 57 && Quiet(sheet)
  {
    ActionIsQuiet(raw);
    SanitisedIsOneLine(configured);
    match ends
    case Some(e) =>
      EndsAreShort(e);
      var rest := if configured == "" then PromptAction(raw) else Sanitise(configured);
      var lead := "Sign in " + EndsOnSheet(e);
      QuietJoin("Sign in ", EndsOnSheet(e));
      QuietJoin(lead, " \U{00B7} ");
      QuietJoin(lead + " \U{00B7} ", rest);
      ShortenIsShort(lead, PROMPT_MAX);
      ShortenIsShort(lead + " \U{00B7} " + rest, PROMPT_MAX);
    case None =>
      ShortenIsShort(Sanitise(configured), PROMPT_MAX);
      if app.Some? {
        SanitisedIsOneLine(app.value);
        QuietJoin(PromptAction(raw), " \U{00B7} ");
        QuietJoin(PromptAction(raw) + " \U{00B7} ", Sanitise(app.value));
      }
  }
}
