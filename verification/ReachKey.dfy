/** The string the enclave half knows an approval by (daemon/src/agent.rs, `Reach::key`):
    a place is its JSON, written as section 7 of RFC 8259 has it, and crosses into Swift as
    a C string. */
module ReachKey {
  import opened Basics
  import opened Approval

  const HEX := "0123456789abcdef"

  function EscapeChar(c: char): string {
    if c == '"' then "\\\""
    else if c == '\\' then "\\\\"
    else if c == '\U{08}' then "\\b"
    else if c == '\t' then "\\t"
    else if c == '\n' then "\\n"
    else if c == '\U{0c}' then "\\f"
    else if c == '\r' then "\\r"
    else if c as int < 0x20 then "\\u00" + [HEX[c as int / 16], HEX[c as int % 16]]
    else [c]
  }

  function Escape(s: string): string {
    if s == "" then "" else EscapeChar(s[0]) + Escape(s[1..])
  }

  function Value(o: Option<string>): string {
    match o
    case None => "null"
    case Some(s) => "\"" + Escape(s) + "\""
  }

  function Json(scope: Scope): string {
    "{\"directory\":" + (Value(scope.directory) + (",\"host\":" + (Value(scope.host) + (",\"repo\":" + (Value(scope.repo) + "}")))))
  }

  function Key(reach: Reach): string {
    match reach
    case Everywhere => "everywhere"
    case Place(scope) => Json(scope)
  }

  // ---- reading it back

  function Digit(c: char): Option<int> {
    if '0' <= c <= '9' then Some(c as int - '0' as int)
    else if 'a' <= c <= 'f' then Some(c as int - 'a' as int + 10)
    else None
  }

  /** The first character of a JSON string's body, and how much of the body it takes. */
  function ReadChar(t: string): (r: Option<(char, nat)>)
    ensures r.Some? ==> 0 < r.value.1 <= |t|
  {
    if t == "" || t[0] == '"' then None
    else if t[0] != '\\' then Some((t[0], 1))
    else if |t| < 2 then None
    else match t[1]
      case '"' => Some(('"', 2))
      case '\\' => Some(('\\', 2))
      case 'b' => Some(('\U{08}', 2))
      case 't' => Some(('\t', 2))
      case 'n' => Some(('\n', 2))
      case 'f' => Some(('\U{0c}', 2))
      case 'r' => Some(('\r', 2))
      case 'u' =>
        if |t| < 6 || Digit(t[4]).None? || Digit(t[5]).None? then None
        else Some(((16 * Digit(t[4]).value + Digit(t[5]).value) as char, 6))
      case _ => None
  }

  /** A JSON string's body up to its closing quote, and what follows the quote. */
  function ReadBody(t: string): Option<(string, string)>
    decreases |t|
  {
    if t == "" then None
    else if t[0] == '"' then Some(("", t[1..]))
    else
      var first := ReadChar(t);
      if first.None? then None
      else
        var rest := ReadBody(t[first.value.1..]);
        if rest.None? then None else Some(([first.value.0] + rest.value.0, rest.value.1))
  }

  function ReadValue(t: string): Option<(Option<string>, string)> {
    if t == "" then None
    else if t[0] == '"' then
      var body := ReadBody(t[1..]);
      if body.None? then None else Some((Some(body.value.0), body.value.1))
    else if |t| < 4 then None
    else Some((None, t[4..]))
  }

  lemma ReadCharBack(c: char, rest: string)
    ensures ReadChar(EscapeChar(c) + rest) == Some((c, |EscapeChar(c)|))
  {
    var t := EscapeChar(c) + rest;
    if c as int < 0x20 && EscapeChar(c)[1] == 'u' {
      assert t[4] == HEX[c as int / 16] && t[5] == HEX[c as int % 16];
      assert Digit(t[4]) == Some(c as int / 16) && Digit(t[5]) == Some(c as int % 16);
    }
  }

  lemma {:induction false} ReadBodyBack(s: string, rest: string)
    ensures ReadBody(Escape(s) + "\"" + rest) == Some((s, rest))
  {
    var t := Escape(s) + "\"" + rest;
    if s == "" {
      assert t == "\"" + rest && t[1..] == rest;
    } else {
      var tail := Escape(s[1..]) + "\"" + rest;
      assert t == EscapeChar(s[0]) + tail;
      ReadCharBack(s[0], tail);
      assert t[|EscapeChar(s[0])|..] == tail;
      ReadBodyBack(s[1..], rest);
      assert [s[0]] + s[1..] == s;
    }
  }

  lemma ReadValueBack(o: Option<string>, rest: string)
    ensures ReadValue(Value(o) + rest) == Some((o, rest))
  {
    var t := Value(o) + rest;
    match o
    case None => assert t[4..] == rest;
    case Some(s) =>
      var body := Escape(s) + "\"" + rest;
      assert t == "\"" + body && t[1..] == body;
      ReadBodyBack(s, rest);
  }

  /** Whatever follows a value, equal texts begin with equal values. */
  lemma SameValue(o: Option<string>, rest: string, o': Option<string>, rest': string)
    requires Value(o) + rest == Value(o') + rest'
    ensures o == o' && rest == rest'
  {
    ReadValueBack(o, rest);
    ReadValueBack(o', rest');
  }

  lemma SamePrefix(prefix: string, rest: string, rest': string)
    requires prefix + rest == prefix + rest'
    ensures rest == rest'
  {
    assert (prefix + rest)[|prefix|..] == rest && (prefix + rest')[|prefix|..] == rest';
  }

  lemma SameJson(a: Scope, b: Scope)
    requires Json(a) == Json(b)
    ensures a == b
  {
    var repo, repo' := Value(a.repo) + "}", Value(b.repo) + "}";
    var host, host' := Value(a.host) + (",\"repo\":" + repo), Value(b.host) + (",\"repo\":" + repo');
    SamePrefix("{\"directory\":", Value(a.directory) + (",\"host\":" + host), Value(b.directory) + (",\"host\":" + host'));
    SameValue(a.directory, ",\"host\":" + host, b.directory, ",\"host\":" + host');
    SamePrefix(",\"host\":", host, host');
    SameValue(a.host, ",\"repo\":" + repo, b.host, ",\"repo\":" + repo');
    SamePrefix(",\"repo\":", repo, repo');
    SameValue(a.repo, "}", b.repo, "}");
  }

  /** No two approvals share a context: not two places, and no place names the sign-in's. */
  lemma KeyInjective(a: Reach, b: Reach)
    ensures Key(a) == Key(b) <==> a == b
  {
    if Key(a) == Key(b) {
      assert a.Place? ==> Key(a)[0] == '{';
      assert b.Place? ==> Key(b)[0] == '{';
      if a.Place? && b.Place? {
        SameJson(a.scope, b.scope);
      }
    }
  }

  predicate Printable(s: string) {
    forall i | 0 <= i < |s| :: s[i] as int >= 0x20
  }

  lemma {:induction false} EscapePrintable(s: string)
    ensures Printable(Escape(s))
  {
    if s != "" {
      EscapePrintable(s[1..]);
      assert Printable(EscapeChar(s[0]));
    }
  }

  lemma ValuePrintable(o: Option<string>)
    ensures Printable(Value(o))
  {
    if o.Some? {
      EscapePrintable(o.value);
    }
  }

  lemma JoinPrintable(a: string, b: string)
    requires Printable(a) && Printable(b)
    ensures Printable(a + b)
  {
  }

  lemma FieldPrintable(name: string, o: Option<string>, rest: string)
    requires Printable(name) && Printable(rest)
    ensures Printable(name + (Value(o) + rest))
  {
    ValuePrintable(o);
    JoinPrintable(Value(o), rest);
    JoinPrintable(name, Value(o) + rest);
  }

  /** No key holds a NUL, so none is cut short or emptied on its way through a C string. */
  lemma KeySurvivesC(reach: Reach)
    ensures Printable(Key(reach))
  {
    if reach.Place? {
      var scope := reach.scope;
      var repo := ",\"repo\":" + (Value(scope.repo) + "}");
      var host := ",\"host\":" + (Value(scope.host) + repo);
      FieldPrintable(",\"repo\":", scope.repo, "}");
      FieldPrintable(",\"host\":", scope.host, repo);
      FieldPrintable("{\"directory\":", scope.directory, host);
    }
  }
}
