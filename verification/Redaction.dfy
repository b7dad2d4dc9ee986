/** Credentials taken out of a command line before anything keeps it
    (daemon/src/attrib.rs). The argument is UTF-8; every slice is cut where Rust lets a
    string be cut, or the daemon would stop. */
module Redaction {
  import opened Basics
  import opened Utf8

  // ---- classes of bytes

  predicate IsDigit(b: byte) { '0' as int <= b <= '9' as int }

  predicate IsUpper(b: byte) { 'A' as int <= b <= 'Z' as int }

  predicate IsLower(b: byte) { 'a' as int <= b <= 'z' as int }

  predicate IsAlphanumeric(b: byte) { IsDigit(b) || IsUpper(b) || IsLower(b) }

  predicate IsTokenish(b: byte) { IsAlphanumeric(b) || b == '_' as int || b == '-' as int }

  predicate IsUpperOrDigit(b: byte) { IsUpper(b) || IsDigit(b) }

  predicate IsSpace(b: byte) { b == 0x20 || b == 0x09 || b == 0x0A || b == 0x0C || b == 0x0D }

  predicate IsQuote(b: byte) { b == '"' as int || b == '\'' as int }

  function Lower(b: byte): byte { if IsUpper(b) then b + 32 else b }

  /** What ends a credential besides white space: after a scheme, and after `=`. */
  datatype Delims = AfterScheme | AfterEquals

  predicate Ends(b: byte, delims: Delims) {
    IsSpace(b) || IsQuote(b) || b == (if delims == AfterScheme then '}' else '&') as int
  }

  // ---- where the rules match

  predicate StartsWith(b: seq<byte>, i: nat, p: string) {
    i + |p| <= |b| && forall k | 0 <= k < |p| :: b[i + k] == p[k] as int
  }

  predicate StartsWithAnyCase(b: seq<byte>, i: nat, p: string) {
    i + |p| <= |b| && forall k | 0 <= k < |p| :: Lower(b[i + k]) == p[k] as int
  }

  function SchemeAt(b: seq<byte>, i: nat): (end: Option<nat>)
    ensures end.Some? ==> i < end.value <= |b| && b[end.value - 1] == 0x20
  {
    if StartsWithAnyCase(b, i, "bearer ") then
      assert Lower(b[i + 6]) == "bearer "[6] as int;
      Some(i + 7)
    else if StartsWithAnyCase(b, i, "basic ") then
      assert Lower(b[i + 5]) == "basic "[5] as int;
      Some(i + 6)
    else None
  }

  /** The first place from `i` on where a byte stops a run. */
  ghost predicate RunEnds(b: seq<byte>, i: nat, j: nat, goesOn: byte -> bool) {
    && i <= j <= |b|
    && (forall k | i <= k < j :: goesOn(b[k]))
    && (j < |b| ==> !goesOn(b[j]))
  }

  function RunEnd(b: seq<byte>, i: nat, goesOn: byte -> bool): (j: nat)
    requires i <= |b|
    ensures RunEnds(b, i, j, goesOn)
    decreases |b| - i
  {
    if i < |b| && goesOn(b[i]) then RunEnd(b, i + 1, goesOn) else i
  }

  lemma RunEndsOnce(b: seq<byte>, i: nat, j: nat, k: nat, goesOn: byte -> bool)
    requires RunEnds(b, i, j, goesOn) && RunEnds(b, i, k, goesOn)
    ensures j == k
  {
  }

  function ValueEnd(b: seq<byte>, i: nat, delims: Delims): (j: nat)
    requires i <= |b|
    ensures i <= j <= |b| && (j < |b| ==> Ends(b[j], delims))
  {
    RunEnd(b, i, (x: byte) => !Ends(x, delims))
  }

  /** Where the run of token bytes that ends before `eq` begins. */
  function KeyStart(b: seq<byte>, eq: nat): (s: nat)
    requires eq <= |b|
    ensures s <= eq && forall k | s <= k < eq :: IsTokenish(b[k])
    ensures s > 0 ==> !IsTokenish(b[s - 1])
  {
    if eq > 0 && IsTokenish(b[eq - 1]) then KeyStart(b, eq - 1) else eq
  }

  /** The words a secret's key ends with, and the vendor prefixes of tokens that identify
      themselves. Nothing below depends on what they are, but for `Sound`. */
  datatype Tables = Tables(keys: seq<string>, prefixes: seq<string>)

  const TABLES := Tables(
    ["token", "password", "secret", "api_key", "apikey"],
    ["github_pat_", "npm_", "ghp_", "gho_", "ghu_", "ghs_", "ghr_", "napi_", "sk_",
     "xoxa_", "xoxb_", "xoxp_", "xoxr_"])

  predicate EndsWithAnyCase(b: seq<byte>, s: nat, eq: nat, p: string)
    requires s <= eq <= |b|
  {
    eq - s >= |p| && StartsWithAnyCase(b, eq - |p|, p)
  }

  predicate SecretKeyBefore(t: Tables, b: seq<byte>, eq: nat)
    requires eq <= |b|
  {
    exists k | 0 <= k < |t.keys| :: EndsWithAnyCase(b, KeyStart(b, eq), eq, t.keys[k])
  }

  predicate WordStart(b: seq<byte>, i: nat)
    requires i <= |b|
  {
    i == 0 || !(IsAlphanumeric(b[i - 1]) || b[i - 1] == '_' as int)
  }

  /** A vendor prefix, from the `k`th on, and at least eight token bytes after it. */
  function VendorToken(t: Tables, b: seq<byte>, i: nat, k: nat): (end: Option<nat>)
    requires k <= |t.prefixes|
    ensures end.Some? ==> i < end.value <= |b| && IsTokenish(b[end.value - 1])
    decreases |t.prefixes| - k
  {
    if k == |t.prefixes| then None
    else
      var p := t.prefixes[k];
      if StartsWith(b, i, p) && RunEnd(b, i + |p|, IsTokenish) - (i + |p|) >= 8 then
        Some(RunEnd(b, i + |p|, IsTokenish))
      else VendorToken(t, b, i, k + 1)
  }

  function TokenAt(t: Tables, b: seq<byte>, i: nat): (end: Option<nat>)
    ensures end.Some? ==> i < end.value <= |b| && IsTokenish(b[end.value - 1])
  {
    var vendor := VendorToken(t, b, i, 0);
    if vendor.Some? then vendor
    else if i + 20 <= |b| && StartsWith(b, i, "AKIA") && RunEnd(b, i + 4, IsUpperOrDigit) - i >= 20 then
      Some(RunEnd(b, i + 4, IsUpperOrDigit))
    else None
  }

  // ---- one move of the scanner

  /** Copy up to `copyTo`; put the marker there if `mask`; go on from `next`. */
  datatype Move = Move(copyTo: nat, mask: bool, next: nat)

  function SkipSpaces(b: seq<byte>, i: nat): (j: nat)
    requires i <= |b|
    ensures i <= j <= |b| && (j > i ==> b[j - 1] == 0x20)
  {
    RunEnd(b, i, (x: byte) => x == 0x20)
  }

  function NextChar(b: seq<byte>, i: nat): (j: nat)
    requires i < |b|
    ensures i < j <= |b| && Boundary(b, j) && forall k | i < k < j :: Cont(b[k])
    decreases |b| - i
  {
    if Boundary(b, i + 1) then i + 1 else NextChar(b, i + 1)
  }

  /** The value a scheme at `i` introduces, if there is one: where it starts and ends. */
  function SchemeValue(b: seq<byte>, i: nat): (v: Option<(nat, nat)>)
    ensures v.Some? ==> i < v.value.0 < v.value.1 <= |b| && b[v.value.0 - 1] == 0x20
  {
    var after := SchemeAt(b, i);
    if after.None? then None
    else
      var v := SkipSpaces(b, after.value);
      var end := ValueEnd(b, v, AfterScheme);
      if end > v then Some((v, end)) else None
  }

  /** Past `=` and an opening quote. */
  function ValueStart(b: seq<byte>, i: nat): (v: nat)
    requires i < |b|
    ensures i < v <= |b| && (v > i + 1 ==> IsQuote(b[v - 1]))
  {
    if i + 1 < |b| && IsQuote(b[i + 1]) then i + 2 else i + 1
  }

  function MoveAt(t: Tables, b: seq<byte>, i: nat): (m: Move)
    requires i < |b|
    ensures i <= m.copyTo <= m.next <= |b| && i < m.next && (m.mask <==> m.copyTo < m.next)
  {
    var scheme := SchemeValue(b, i);
    if scheme.Some? then
      Move(scheme.value.0, true, scheme.value.1)
    else if b[i] == '=' as int && SecretKeyBefore(t, b, i) then
      var v := ValueStart(b, i);
      var end := ValueEnd(b, v, AfterEquals);
      Move(v, end > v, end)
    else if WordStart(b, i) && TokenAt(t, b, i).Some? then
      Move(i, true, TokenAt(t, b, i).value)
    else
      Move(NextChar(b, i), false, NextChar(b, i))
  }

  /** "[redacted]" */
  const MARKER: seq<byte> := [91, 114, 101, 100, 97, 99, 116, 101, 100, 93]

  /** What the scanner makes of everything from `i` on. */
  function Redacted(t: Tables, b: seq<byte>, i: nat): seq<byte>
    requires i <= |b|
    decreases |b| - i
  {
    if i == |b| then []
    else
      var m := MoveAt(t, b, i);
      b[i..m.copyTo] + (if m.mask then MARKER else []) + Redacted(t, b, m.next)
  }

  // ---- the scanner itself

  method RunTo(b: seq<byte>, i: nat, goesOn: byte -> bool) returns (j: nat)
    requires i <= |b|
    ensures j == RunEnd(b, i, goesOn)
  {
    j := i;
    while j < |b| && goesOn(b[j])
      invariant i <= j <= |b| && forall k | i <= k < j :: goesOn(b[k])
    {
      j := j + 1;
    }
    RunEndsOnce(b, i, j, RunEnd(b, i, goesOn), goesOn);
  }

  method IsSecretKey(t: Tables, b: seq<byte>, eq: nat) returns (secret: bool)
    requires eq <= |b|
    ensures secret == SecretKeyBefore(t, b, eq)
  {
    var s := eq;
    while s > 0 && IsTokenish(b[s - 1])
      invariant 0 <= s <= eq
      invariant KeyStart(b, eq) == KeyStart(b, s)
    {
      s := s - 1;
    }
    secret := false;
    for k := 0 to |t.keys|
      invariant secret <==> exists j | 0 <= j < k :: EndsWithAnyCase(b, s, eq, t.keys[j])
    {
      secret := secret || EndsWithAnyCase(b, s, eq, t.keys[k]);
    }
  }

  method FindToken(t: Tables, b: seq<byte>, i: nat) returns (end: Option<nat>)
    ensures end == TokenAt(t, b, i)
  {
    for k := 0 to |t.prefixes|
      invariant VendorToken(t, b, i, 0) == VendorToken(t, b, i, k)
    {
      var p := t.prefixes[k];
      if StartsWith(b, i, p) {
        var j := RunTo(b, i + |p|, IsTokenish);
        if j - (i + |p|) >= 8 {
          return Some(j);
        }
      }
    }
    if i + 20 <= |b| && StartsWith(b, i, "AKIA") {
      var j := RunTo(b, i + 4, IsUpperOrDigit);
      if j - i >= 20 {
        return Some(j);
      }
    }
    return None;
  }

  /** Rust's slice of a string: both ends must fall between characters. */
  function Slice(b: seq<byte>, i: nat, j: nat): seq<byte>
    requires i <= j <= |b| && Boundary(b, i) && Boundary(b, j)
  {
    b[i..j]
  }

  lemma ValueCut(b: seq<byte>, v: nat, delims: Delims)
    requires Cuttable(b) && 0 < v <= |b| && b[v - 1] < 0x80
    ensures Boundary(b, v) && Boundary(b, ValueEnd(b, v, delims))
  {
  }

  lemma SchemeCut(b: seq<byte>, i: nat)
    requires Cuttable(b) && SchemeValue(b, i).Some?
    ensures var (v, end) := SchemeValue(b, i).value; Boundary(b, v) && Boundary(b, end)
  {
    ValueCut(b, SchemeValue(b, i).value.0, AfterScheme);
  }

  lemma TokenCut(t: Tables, b: seq<byte>, i: nat)
    requires Cuttable(b) && TokenAt(t, b, i).Some?
    ensures Boundary(b, TokenAt(t, b, i).value)
  {
    assert b[TokenAt(t, b, i).value - 1] < 0x80;
  }

  /** Every place the scanner cuts at, it may cut at. */
  lemma MoveBoundaries(t: Tables, b: seq<byte>, i: nat)
    requires Cuttable(b) && i < |b| && Boundary(b, i)
    ensures Boundary(b, MoveAt(t, b, i).copyTo) && Boundary(b, MoveAt(t, b, i).next)
  {
    if SchemeValue(b, i).Some? {
      SchemeCut(b, i);
    } else if b[i] == '=' as int && SecretKeyBefore(t, b, i) {
      ValueCut(b, ValueStart(b, i), AfterEquals);
    } else if WordStart(b, i) && TokenAt(t, b, i).Some? {
      TokenCut(t, b, i);
    }
  }

  method FindSchemeValue(b: seq<byte>, i: nat) returns (value: Option<(nat, nat)>)
    ensures value == SchemeValue(b, i)
  {
    var after := SchemeAt(b, i);
    if after.None? {
      return None;
    }
    var v := RunTo(b, after.value, (x: byte) => x == 0x20);
    var end := RunTo(b, v, (x: byte) => !Ends(x, AfterScheme));
    value := if end > v then Some((v, end)) else None;
  }

  method FindNextChar(b: seq<byte>, start: nat) returns (i: nat)
    requires start < |b|
    ensures i == NextChar(b, start)
  {
    i := start + 1;
    while i < |b| && !Boundary(b, i)
      invariant start < i <= |b|
      invariant NextChar(b, start) == NextChar(b, i - 1)
    {
      i := i + 1;
    }
  }

  /** One turn of the loop: what it adds to the output, and where it goes on. */
  method Turn(t: Tables, b: seq<byte>, i: nat) returns (piece: seq<byte>, next: nat)
    requires Cuttable(b) && i < |b| && Boundary(b, i)
    ensures var m := MoveAt(t, b, i);
      piece == b[i..m.copyTo] + (if m.mask then MARKER else []) && next == m.next
  {
    MoveBoundaries(t, b, i);
    var scheme := FindSchemeValue(b, i);
    if scheme.Some? {
      return Slice(b, i, scheme.value.0) + MARKER, scheme.value.1;
    }
    var secret := false;
    if b[i] == '=' as int {
      secret := IsSecretKey(t, b, i);
    }
    if secret {
      var v, end := SecretValue(b, i);
      return b[i..v] + (if end > v then MARKER else []), end;
    }
    var token := None;
    if WordStart(b, i) {
      token := FindToken(t, b, i);
    }
    if token.Some? {
      return MARKER, token.value;
    }
    next := FindNextChar(b, i);
    piece := Slice(b, i, next);
  }

  method Redact(t: Tables, arg: seq<byte>) returns (out: seq<byte>)
    requires Cuttable(arg)
    ensures out == Redacted(t, arg, 0)
  {
    out := [];
    var i := 0;
    while i < |arg|
      invariant i <= |arg| && Boundary(arg, i)
      invariant Redacted(t, arg, 0) == out + Redacted(t, arg, i)
    {
      MoveBoundaries(t, arg, i);
      Resume(t, arg, i, out);
      var piece, next := Turn(t, arg, i);
      out := out + piece;
      i := next;
    }
  }

  /** The value after a secret key's `=`, past the quote that may open it. */
  method SecretValue(b: seq<byte>, i: nat) returns (v: nat, end: nat)
    requires i < |b|
    ensures v == ValueStart(b, i) && end == ValueEnd(b, v, AfterEquals)
  {
    v := i + 1;
    if v < |b| && IsQuote(b[v]) {
      v := v + 1;
    }
    end := RunTo(b, v, (x: byte) => !Ends(x, AfterEquals));
  }

  lemma Resume(t: Tables, b: seq<byte>, i: nat, out: seq<byte>)
    requires i < |b|
    ensures var m := MoveAt(t, b, i);
      out + Redacted(t, b, i) == out + (b[i..m.copyTo] + (if m.mask then MARKER else [])) + Redacted(t, b, m.next)
  {
    var m := MoveAt(t, b, i);
    Joined(out, b[i..m.copyTo] + (if m.mask then MARKER else []), Redacted(t, b, m.next));
  }

  // ---- what comes out

  /** What comes out of UTF-8 is UTF-8. */
  lemma {:induction false} RedactedIsValid(t: Tables, b: seq<byte>, i: nat)
    requires Valid(b) && i <= |b| && Boundary(b, i)
    ensures Valid(Redacted(t, b, i))
    decreases |b| - i
  {
    if i < |b| {
      ValidIsCuttable(b);
      MoveBoundaries(t, b, i);
      PieceIsValid(b, i, MoveAt(t, b, i));
      RedactedIsValid(t, b, MoveAt(t, b, i).next);
      var m := MoveAt(t, b, i);
      ValidJoin(b[i..m.copyTo] + (if m.mask then MARKER else []), Redacted(t, b, m.next));
    }
  }

  lemma {:induction false} AsciiIsValid(a: seq<byte>)
    requires forall k | 0 <= k < |a| :: a[k] < 0x80
    ensures Valid(a)
  {
    if a != [] {
      AsciiIsValid(a[1..]);
    }
  }

  lemma PieceIsValid(b: seq<byte>, i: nat, m: Move)
    requires Valid(b) && i <= m.copyTo <= |b| && Boundary(b, i) && Boundary(b, m.copyTo)
    ensures Valid(b[i..m.copyTo] + (if m.mask then MARKER else []))
  {
    ValidSlice(b, i, m.copyTo);
    if m.mask {
      AsciiIsValid(MARKER);
      ValidJoin(b[i..m.copyTo], MARKER);
    } else {
      assert b[i..m.copyTo] + [] == b[i..m.copyTo];
    }
  }

  /** A stretch of the argument that is not kept, and where the rule that took it out matched. */
  datatype Span = Span(at: nat, from: nat, to: nat)

  function Spans(t: Tables, b: seq<byte>, i: nat): seq<Span>
    requires i <= |b|
    decreases |b| - i
  {
    if i == |b| then []
    else
      var m := MoveAt(t, b, i);
      (if m.mask then [Span(i, m.copyTo, m.next)] else []) + Spans(t, b, m.next)
  }

  /** Spans one after another, none empty, all within the bytes from `i` to `n`. */
  predicate InOrder(spans: seq<Span>, i: nat, n: nat) {
    spans == [] || (i <= spans[0].from < spans[0].to <= n && InOrder(spans[1..], spans[0].to, n))
  }

  /** The bytes from `i` on with each span replaced by the marker, and nothing else touched. */
  function Cut(b: seq<byte>, i: nat, spans: seq<Span>): seq<byte>
    requires i <= |b| && InOrder(spans, i, |b|)
    decreases |spans|
  {
    if spans == [] then b[i..] else b[i..spans[0].from] + (MARKER + Cut(b, spans[0].to, spans[1..]))
  }

  lemma {:induction false} CutLater(b: seq<byte>, i: nat, j: nat, spans: seq<Span>)
    requires i <= j <= |b| && InOrder(spans, j, |b|)
    ensures Cut(b, i, spans) == b[i..j] + Cut(b, j, spans)
  {
    if spans == [] {
      assert b[i..] == b[i..j] + b[j..];
    } else {
      var after := MARKER + Cut(b, spans[0].to, spans[1..]);
      assert b[i..spans[0].from] == b[i..j] + b[j..spans[0].from];
      Joined(b[i..j], b[j..spans[0].from], after);
    }
  }

  /** The output is the argument with in-order, disjoint, non-empty spans replaced by the
      marker and everything else copied. */
  lemma {:induction false} RedactedIsCut(t: Tables, b: seq<byte>, i: nat)
    requires i <= |b|
    ensures InOrder(Spans(t, b, i), i, |b|) && Redacted(t, b, i) == Cut(b, i, Spans(t, b, i))
    decreases |b| - i
  {
    if i < |b| {
      var m := MoveAt(t, b, i);
      RedactedIsCut(t, b, m.next);
      CutMove(b, i, m, Spans(t, b, m.next));
    }
  }

  /** One move, in front of what the moves after it come to. */
  lemma CutMove(b: seq<byte>, i: nat, m: Move, rest: seq<Span>)
    requires i <= m.copyTo <= m.next <= |b| && (m.mask <==> m.copyTo < m.next) && InOrder(rest, m.next, |b|)
    ensures var spans := (if m.mask then [Span(i, m.copyTo, m.next)] else []) + rest;
      && InOrder(spans, i, |b|)
      && b[i..m.copyTo] + (if m.mask then MARKER else []) + Cut(b, m.next, rest) == Cut(b, i, spans)
  {
    if m.mask {
      assert ([Span(i, m.copyTo, m.next)] + rest)[1..] == rest;
      Joined(b[i..m.copyTo], MARKER, Cut(b, m.next, rest));
    } else {
      assert [] + rest == rest;
      assert b[i..m.copyTo] + [] == b[i..m.copyTo];
      CutLater(b, i, m.copyTo, rest);
    }
  }

  lemma Joined(a: seq<byte>, b: seq<byte>, c: seq<byte>)
    ensures a + b + c == a + (b + c)
  {
  }

  // ---- what is kept, and what is not

  /** A rule matches here. */
  predicate Matches(t: Tables, b: seq<byte>, i: nat)
    requires i < |b|
  {
    MoveAt(t, b, i).mask
  }

  /** Where no rule matches the scanner only copies, one character or `=` and a quote. */
  lemma OrdinaryMove(t: Tables, b: seq<byte>, i: nat, j: nat)
    requires i < j <= |b| && Boundary(b, j) && (j < |b| ==> !IsQuote(b[j])) && !Matches(t, b, i)
    ensures var m := MoveAt(t, b, i); m.copyTo == m.next <= j && !m.mask
  {
  }

  /** A stretch no rule matches in is copied as it is. */
  lemma {:induction false} OrdinaryTextIsCopied(t: Tables, b: seq<byte>, i: nat, j: nat)
    requires i <= j <= |b| && Boundary(b, j) && (j < |b| ==> !IsQuote(b[j]))
    requires forall p | i <= p < j :: !Matches(t, b, p)
    ensures Redacted(t, b, i) == b[i..j] + Redacted(t, b, j)
    decreases j - i
  {
    if i < j {
      assert !Matches(t, b, i);
      OrdinaryMove(t, b, i, j);
      OrdinaryTextIsCopied(t, b, MoveAt(t, b, i).next, j);
      CopiedOn(b, i, MoveAt(t, b, i).next, j, Redacted(t, b, j));
    }
  }

  lemma CopiedOn(b: seq<byte>, i: nat, next: nat, j: nat, rest: seq<byte>)
    requires i <= next <= j <= |b|
    ensures b[i..next] + [] + (b[next..j] + rest) == b[i..j] + rest
  {
    assert b[i..j] == b[i..next] + b[next..j];
  }

  /** An argument no rule matches anywhere comes back as it was. */
  lemma OrdinaryTextIsUntouched(t: Tables, b: seq<byte>, i: nat)
    requires i <= |b| && forall p | i <= p < |b| :: !Matches(t, b, p)
    ensures Redacted(t, b, i) == b[i..]
  {
    OrdinaryTextIsCopied(t, b, i, |b|);
  }

  /** Every vendor prefix begins with a lower-case letter. */
  predicate Sound(t: Tables) {
    forall k | 0 <= k < |t.prefixes| :: |t.prefixes[k]| > 0 && 'a' <= t.prefixes[k][0] <= 'z'
  }

  lemma TablesAreSound()
    ensures Sound(TABLES)
  {
  }

  lemma {:induction false} VendorHead(t: Tables, b: seq<byte>, i: nat, k: nat)
    requires Sound(t) && k <= |t.prefixes| && VendorToken(t, b, i, k).Some?
    ensures IsLower(b[i])
    decreases |t.prefixes| - k
  {
    var p := t.prefixes[k];
    if StartsWith(b, i, p) && RunEnd(b, i + |p|, IsTokenish) - (i + |p|) >= 8 {
      assert b[i + 0] == p[0] as int;
    } else {
      VendorHead(t, b, i, k + 1);
    }
  }

  lemma TokenHead(t: Tables, b: seq<byte>, i: nat)
    requires Sound(t) && TokenAt(t, b, i).Some?
    ensures IsAlphanumeric(b[i])
  {
    if VendorToken(t, b, i, 0).Some? {
      VendorHead(t, b, i, 0);
    } else {
      assert b[i + 0] == "AKIA"[0] as int;
    }
  }

  lemma SchemeHead(b: seq<byte>, i: nat)
    requires SchemeAt(b, i).Some?
    ensures Lower(b[i]) == 'b' as int
  {
    assert StartsWithAnyCase(b, i, "bearer ") ==> Lower(b[i + 0]) == "bearer "[0] as int;
    assert StartsWithAnyCase(b, i, "basic ") ==> Lower(b[i + 0]) == "basic "[0] as int;
  }

  /** What a rule can begin with. */
  predicate Head(b: seq<byte>, i: nat)
    requires i < |b|
  {
    Lower(b[i]) == 'b' as int || b[i] == '=' as int || (WordStart(b, i) && IsAlphanumeric(b[i]))
  }

  lemma MatchHead(t: Tables, b: seq<byte>, i: nat)
    requires Sound(t) && i < |b| && Matches(t, b, i)
    ensures Head(b, i)
  {
    if SchemeValue(b, i).Some? {
      SchemeHead(b, i);
    } else if !(b[i] == '=' as int && SecretKeyBefore(t, b, i)) {
      TokenHead(t, b, i);
    }
  }

  /** Within "bearer" or "basic" and the spaces after it, nothing else begins. */
  lemma SchemeHidesNothing(b: seq<byte>, i: nat, p: nat)
    requires SchemeValue(b, i).Some? && i < p < SchemeValue(b, i).value.0
    ensures !Head(b, p)
  {
    var after := SchemeAt(b, i).value;
    if p >= after {
      assert b[p] == 0x20;
    } else {
      WithinScheme(b, i, p);
    }
  }

  lemma WithinScheme(b: seq<byte>, i: nat, p: nat)
    requires SchemeAt(b, i).Some? && i < p < SchemeAt(b, i).value
    ensures !Head(b, p)
  {
    var word := if StartsWithAnyCase(b, i, "bearer ") then "bearer " else "basic ";
    assert Lower(b[i + (p - i)]) == word[p - i] as int;
    assert Lower(b[i + (p - i - 1)]) == word[p - i - 1] as int;
  }

  /** Neither an opening quote nor the rest of a longer character begins anything. */
  lemma CopyHidesNothing(t: Tables, b: seq<byte>, i: nat, p: nat)
    requires i < |b| && SchemeValue(b, i).None? && i < p < MoveAt(t, b, i).copyTo
    ensures !Head(b, p)
  {
    if b[i] == '=' as int && SecretKeyBefore(t, b, i) {
      assert IsQuote(b[p]);
    } else {
      assert Cont(b[p]);
    }
  }

  /** Nothing that is copied along with a match, or as part of a longer character, could
      itself begin a match. */
  lemma CopiesHideNothing(t: Tables, b: seq<byte>, i: nat, p: nat)
    requires Sound(t) && i < |b| && i < p < MoveAt(t, b, i).copyTo
    ensures !Matches(t, b, p)
  {
    if Matches(t, b, p) {
      MatchHead(t, b, p);
      if SchemeValue(b, i).Some? {
        SchemeHidesNothing(b, i, p);
      } else {
        CopyHidesNothing(t, b, i, p);
      }
    }
  }

  /** Byte `p` is in one of the spans. */
  predicate Gone(spans: seq<Span>, p: nat) {
    exists k | 0 <= k < |spans| :: spans[k].from <= p < spans[k].to
  }

  /** No match survives: wherever a rule matches, either the place itself is inside a span
      taken out, or the value the rule points at is. */
  lemma {:induction false} NoMatchSurvives(t: Tables, b: seq<byte>, i: nat, p: nat)
    requires Sound(t) && i <= p < |b| && Matches(t, b, p)
    ensures Gone(Spans(t, b, i), p) || Span(p, MoveAt(t, b, p).copyTo, MoveAt(t, b, p).next) in Spans(t, b, i)
    decreases |b| - i
  {
    var m := MoveAt(t, b, i);
    if i < p {
      if p < m.copyTo {
        CopiesHideNothing(t, b, i, p);
      }
      if p < m.next {
        assert Spans(t, b, i)[0] == Span(i, m.copyTo, m.next);
      } else {
        NoMatchSurvives(t, b, m.next, p);
        GoneLater(t, b, i, p);
      }
    }
  }

  lemma GoneLater(t: Tables, b: seq<byte>, i: nat, p: nat)
    requires i < |b|
    ensures Gone(Spans(t, b, MoveAt(t, b, i).next), p) ==> Gone(Spans(t, b, i), p)
    ensures forall s | s in Spans(t, b, MoveAt(t, b, i).next) :: s in Spans(t, b, i)
  {
    var m := MoveAt(t, b, i);
    var rest := Spans(t, b, m.next);
    if Gone(rest, p) {
      var k :| 0 <= k < |rest| && rest[k].from <= p < rest[k].to;
      assert Spans(t, b, i)[k + (if m.mask then 1 else 0)] == rest[k];
    }
  }

  /** Each span comes of a match, and each match after the span before it. */
  predicate Apart(t: Tables, b: seq<byte>, i: nat, spans: seq<Span>) {
    && (forall k | 0 <= k < |spans| ::
          i <= spans[k].at < |b| && MoveAt(t, b, spans[k].at) == Move(spans[k].from, true, spans[k].to))
    && (forall j, k | 0 <= j < k < |spans| :: spans[j].to <= spans[k].at)
  }

  lemma ApartMove(t: Tables, b: seq<byte>, i: nat, rest: seq<Span>)
    requires i < |b| && Apart(t, b, MoveAt(t, b, i).next, rest)
    ensures var m := MoveAt(t, b, i); Apart(t, b, i, (if m.mask then [Span(i, m.copyTo, m.next)] else []) + rest)
  {
  }

  lemma {:induction false} SpansApart(t: Tables, b: seq<byte>, i: nat)
    requires i <= |b|
    ensures Apart(t, b, i, Spans(t, b, i))
    decreases |b| - i
  {
    if i < |b| {
      SpansApart(t, b, MoveAt(t, b, i).next);
      ApartMove(t, b, i, Spans(t, b, MoveAt(t, b, i).next));
    }
  }
}
