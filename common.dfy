// The decision and evidence records every primitive produces
// (domain/common: decision.py, evidence.py, versioning.py).
module Common {
  import opened Wrappers

  /** The three confidence levels a decision can carry. */
  datatype Confidence = HIGH | MEDIUM | LOW

  /**
   * A JSON-like value, used for metrics, thresholds, evidence references and
   * item metadata.  `Time` stands for a timestamp (its ISO text is not modelled);
   * `Strs` is a list of strings, such as a reasons list.
   */
  datatype Value =
    | Null
    | Bool(b: bool)
    | Int(i: int)
    | Num(x: real)
    | Str(s: string)
    | Time(t: int)
    | Strs(strs: seq<string>)
    | List(items: seq<Value>)
    | Obj(fields: map<string, Value>)

  type Fields = map<string, Value>

  datatype VersionInfo = VersionInfo(primitiveVersion: string, canonicalVersion: string, configVersion: string)

  datatype DecisionResult = DecisionResult(
    state: string,
    confidence: Confidence,
    drivers: seq<string>,
    metrics: Fields,
    evidenceRefs: seq<string>,
    versions: VersionInfo,
    computedAt: int,
    validUntil: Option<int>)

  datatype Evidence = Evidence(
    evidenceId: string,
    ruleIds: seq<string>,
    thresholds: Fields,
    references: Fields,
    observedAt: int)

  datatype EvidenceSet = EvidenceSet(evidence: seq<Evidence>)

  /** A run's identity (application/run_context.py); `asOfTs` is in seconds. */
  datatype RunContext = RunContext(
    tenantId: string,
    primitiveName: string,
    primitiveVersion: string,
    asOfTs: int,
    configVersion: string,
    correlationId: string)

  /** What every evaluator returns: one decision and the evidence behind it. */
  datatype PrimitiveResult = PrimitiveResult(decision: DecisionResult, evidenceSet: EvidenceSet)

  /** The `TypeError` Python raises when an evaluator compares or negates a `None` affinity score. */
  datatype EvaluationError = NoneScoreTypeError

  /** Python truthiness of an optional string: present and non-empty. */
  predicate Truthy(s: Option<string>)
  {
    s.Some? && s.value != ""
  }

  /** Number of seconds in a calendar day; timestamps are seconds since the epoch. */
  const SecondsPerDay: int := 86400

  /** The calendar day of a timestamp (`datetime.date()`), as a day ordinal. */
  function DayOf(ts: int): (d: int)
    ensures d * SecondsPerDay <= ts < (d + 1) * SecondsPerDay
  {
    ts / SecondsPerDay
  }

  /** `(b.date() - a.date()).days`: whole calendar days from `a` to `b`. */
  function DaysBetween(a: int, b: int): (days: int)
    ensures a <= b ==> days >= 0
    ensures days * SecondsPerDay - SecondsPerDay < b - a < days * SecondsPerDay + SecondsPerDay
  {
    DayOf(b) - DayOf(a)
  }

  /** `str.upper()` restricted to ASCII: the letters a-z become A-Z, every other character is kept. */
  function UpperChar(c: char): (u: char)
    ensures 'a' <= c <= 'z' ==> 'A' <= u <= 'Z'
    ensures !('a' <= c <= 'z') ==> u == c
  {
    if 'a' <= c <= 'z' then (c as int - 32) as char else c
  }

  function Upper(s: string): (u: string)
    ensures |u| == |s|
    ensures forall i :: 0 <= i < |s| ==> u[i] == UpperChar(s[i])
  {
    seq(|s|, i requires 0 <= i < |s| => UpperChar(s[i]))
  }

  /** Upper-casing twice is upper-casing once. */
  lemma UpperIdempotent(s: string)
    ensures Upper(Upper(s)) == Upper(s)
  {
  }

  // ---- repr() of a text ---------------------------------------------------

  /** The quote `repr` puts around a text: a double quote exactly when it holds a single quote and no double quote. */
  function ReprQuote(s: string): (q: char)
    ensures q == '"' <==> '\'' in s && '"' !in s
    ensures q == '\'' || q == '"'
  {
    if '\'' in s && '"' !in s then '"' else '\''
  }

  /** The characters `repr` writes as `\xhh`: the ASCII control characters other than tab, newline and return, and DEL. */
  predicate IsHexEscaped(c: char)
  {
    (c < ' ' && c != '\t' && c != '\n' && c != '\r') || c as int == 127
  }

  function HexDigit(n: int): (d: char)
    requires 0 <= n < 16
    ensures IsHex(d) && HexValue(d) == n
  {
    if n < 10 then ('0' as int + n) as char else ('a' as int + n - 10) as char
  }

  predicate IsHex(d: char)
  {
    '0' <= d <= '9' || 'a' <= d <= 'f'
  }

  function HexValue(d: char): (n: int)
    requires IsHex(d)
    ensures 0 <= n < 16
  {
    if d <= '9' then d as int - '0' as int else d as int - 'a' as int + 10
  }

  /** How `repr` writes one character inside quotes `q`. */
  function EscapeChar(c: char, q: char): (e: string)
    ensures 1 <= |e| <= 4
    ensures |e| == 1 <==> c != '\\' && c != q && c != '\t' && c != '\n' && c != '\r' && !IsHexEscaped(c)
  {
    if c == '\\' || c == q then ['\\', c]
    else if c == '\t' then "\\t"
    else if c == '\n' then "\\n"
    else if c == '\r' then "\\r"
    else if IsHexEscaped(c) then ['\\', 'x', HexDigit(c as int / 16), HexDigit(c as int % 16)]
    else [c]
  }

  function ReprBody(s: string, q: char): (b: string)
    ensures |b| >= |s|
  {
    if s == [] then [] else EscapeChar(s[0], q) + ReprBody(s[1..], q)
  }

  /**
   * `repr(s)` of a Python `str`: the text between quotes, with the quote,
   * the backslash and the ASCII control characters escaped.
   */
  function StrRepr(s: string): (r: string)
    ensures |r| >= |s| + 2 && r[0] == ReprQuote(s) && r[|r| - 1] == ReprQuote(s)
  {
    [ReprQuote(s)] + ReprBody(s, ReprQuote(s)) + [ReprQuote(s)]
  }

  /** Reads the escapes `repr` writes back into the characters they stand for. */
  function Unescape(t: string): string
    decreases |t|
  {
    if t == [] then []
    else if t[0] == '\\' && |t| >= 2 then
      if t[1] == 't' then ['\t'] + Unescape(t[2..])
      else if t[1] == 'n' then ['\n'] + Unescape(t[2..])
      else if t[1] == 'r' then ['\r'] + Unescape(t[2..])
      else if t[1] == 'x' && |t| >= 4 && IsHex(t[2]) && IsHex(t[3]) then
        [(HexValue(t[2]) * 16 + HexValue(t[3])) as char] + Unescape(t[4..])
      else [t[1]] + Unescape(t[2..])
    else [t[0]] + Unescape(t[1..])
  }

  lemma UnescapeStep(c: char, q: char, rest: string)
    requires q == '\'' || q == '"'
    ensures Unescape(EscapeChar(c, q) + rest) == [c] + Unescape(rest)
  {
    var t := EscapeChar(c, q) + rest;
    if IsHexEscaped(c) && c != '\\' && c != q && c != '\t' && c != '\n' && c != '\r' {
      assert t[2] == HexDigit(c as int / 16) && t[3] == HexDigit(c as int % 16);
      assert t[4..] == rest;
    } else if |EscapeChar(c, q)| == 2 {
      assert t[2..] == rest;
    } else {
      assert t[1..] == rest;
    }
  }

  /** Unescaping the body `repr` writes gives the text back. */
  lemma {:induction false} ReprBodyRoundTrip(s: string, q: char)
    requires q == '\'' || q == '"'
    ensures Unescape(ReprBody(s, q)) == s
    decreases |s|
  {
    if s != [] {
      UnescapeStep(s[0], q, ReprBody(s[1..], q));
      ReprBodyRoundTrip(s[1..], q);
      assert s == [s[0]] + s[1..];
    }
  }

  /** `repr` of a text without quotes, backslashes or control characters is the text in single quotes. */
  lemma {:induction false} StrReprPlain(s: string)
    requires forall i :: 0 <= i < |s| ==> s[i] != '\'' && s[i] != '"' && s[i] != '\\' && ' ' <= s[i] && s[i] as int != 127
    ensures StrRepr(s) == "'" + s + "'"
    decreases |s|
  {
    PlainBody(s);
  }

  lemma {:induction false} PlainBody(s: string)
    requires forall i :: 0 <= i < |s| ==> s[i] != '\'' && s[i] != '\\' && ' ' <= s[i] && s[i] as int != 127
    ensures ReprBody(s, '\'') == s
    decreases |s|
  {
    if s != [] {
      PlainBody(s[1..]);
      assert s == [s[0]] + s[1..];
    }
  }

  /** How an f-string renders the frozen dataclass `CorrelationId(value: str)`: its generated repr. */
  function CorrelationIdText(value: string): (t: string)
    ensures |t| >= |value| + 23
    ensures t[..20] == "CorrelationId(value=" && t[|t| - 1] == ')'
    ensures t[20] == t[|t| - 2] == ReprQuote(value)
    ensures Unescape(t[21..|t| - 2]) == value
  {
    var r := StrRepr(value);
    var t := "CorrelationId(value=" + r + ")";
    ReprBodyRoundTrip(value, ReprQuote(value));
    assert t[21..|t| - 2] == ReprBody(value, ReprQuote(value));
    t
  }

  /** The correlation id "abc" renders as `CorrelationId(value='abc')`. */
  lemma CorrelationIdTextPlain()
    ensures CorrelationIdText("abc") == "CorrelationId(value='abc')"
  {
    StrReprPlain("abc");
  }
}
