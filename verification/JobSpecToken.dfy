/** The download token: a job spec as JSON text (RFC 8259), in UTF-8, in URL-safe base64. */
module JobSpecToken {
  import opened Common
  import opened Decimal
  import Base64
  import Utf8

  predicate InRange(n: int) {
    -0x8000_0000_0000_0000 <= n < 0x8000_0000_0000_0000
  }

  // ----- Printing

  function HexDigit(v: nat): char
    requires v < 16
  {
    if v < 10 then ('0' as int + v) as char else ('a' as int + v - 10) as char
  }

  function Hex4(n: nat): (s: string)
    requires n < 0x1_0000
    ensures |s| == 4
  {
    [HexDigit(n / 0x1000), HexDigit(n / 0x100 % 0x10), HexDigit(n / 0x10 % 0x10), HexDigit(n % 0x10)]
  }

  /** Characters below space, the three HTML characters and the two line separators leave as `\u` escapes. */
  predicate EscapedAsHex(c: char) {
    c < ' ' || c == '<' || c == '>' || c == '&' || c as int == 0x2028 || c as int == 0x2029
  }

  function Escape(c: char): (s: string)
    ensures |s| > 0 && s[0] != '"'
  {
    if c == '"' then "\\\"" else if c == '\\' then "\\\\"
    else if c as int == 8 then "\\b" else if c as int == 12 then "\\f"
    else if c == '\n' then "\\n" else if c == '\r' then "\\r" else if c == '\t' then "\\t"
    else if EscapedAsHex(c) then "\\u" + Hex4(c as int)
    else [c]
  }

  function EscapeAll(s: string): string {
    if s == "" then "" else Escape(s[0]) + EscapeAll(s[1..])
  }

  function Quote(s: string): string {
    "\"" + EscapeAll(s) + "\""
  }

  function Key(name: string): string {
    "\"" + name + "\":"
  }

  function Marshal(js: JobSpec): string {
    "{" +
    (Key("SessionID") + Itoa(js.sessionId) + "," +
     (Key("Owner") + Quote(js.nwo.owner) + "," +
      (Key("Repo") + Quote(js.nwo.repo) + "}")))
  }

  // ----- Parsing

  function HexValue(c: char): int {
    if '0' <= c <= '9' then c as int - '0' as int
    else if 'a' <= c <= 'f' then c as int - 'a' as int + 10
    else if 'A' <= c <= 'F' then c as int - 'A' as int + 10
    else -1
  }

  /** The value of four hexadecimal digits, or -1. */
  function ReadHex4(s: string): (n: int)
    requires |s| >= 4
    ensures -1 <= n < 0x1_0000
  {
    var a, b, c, d := HexValue(s[0]), HexValue(s[1]), HexValue(s[2]), HexValue(s[3]);
    if a < 0 || b < 0 || c < 0 || d < 0 then -1 else ((a * 16 + b) * 16 + c) * 16 + d
  }

  const REPLACEMENT: char := 0xfffd as char

  /** After `\u`: one character, a surrogate pair, or the replacement character for a lone surrogate. */
  function ReadUnicode(s: string): (r: Option<(char, string)>)
    ensures r.Some? ==> |r.value.1| < |s|
  {
    if |s| < 4 || ReadHex4(s) < 0 then None
    else
      var n := ReadHex4(s);
      if n < 0xd800 || n >= 0xe000 then Some((n as char, s[4..]))
      else if n < 0xdc00 && |s| >= 10 && s[4] == '\\' && s[5] == 'u' && 0xdc00 <= ReadHex4(s[6..]) < 0xe000 then
        Some(((0x1_0000 + (n - 0xd800) * 0x400 + (ReadHex4(s[6..]) - 0xdc00)) as char, s[10..]))
      else Some((REPLACEMENT, s[4..]))
  }

  /** One character of a string literal. */
  function ReadChar(s: string): (r: Option<(char, string)>)
    requires s != ""
    ensures r.Some? ==> |r.value.1| < |s|
  {
    if s[0] < ' ' then None
    else if s[0] != '\\' then Some((s[0], s[1..]))
    else if |s| < 2 then None
    else if s[1] == '"' || s[1] == '\\' || s[1] == '/' then Some((s[1], s[2..]))
    else if s[1] == 'b' then Some((8 as char, s[2..]))
    else if s[1] == 'f' then Some((12 as char, s[2..]))
    else if s[1] == 'n' then Some(('\n', s[2..]))
    else if s[1] == 'r' then Some(('\r', s[2..]))
    else if s[1] == 't' then Some(('\t', s[2..]))
    else if s[1] == 'u' then ReadUnicode(s[2..])
    else None
  }

  /** The rest of a string literal after its opening quote. */
  function ReadChars(s: string): (r: Option<(string, string)>)
    ensures r.Some? ==> |r.value.1| < |s|
    decreases |s|
  {
    if s == "" then None
    else if s[0] == '"' then Some(("", s[1..]))
    else
      match ReadChar(s)
      case None => None
      case Some((c, rest)) =>
        match ReadChars(rest)
        case None => None
        case Some((cs, rest')) => Some(([c] + cs, rest'))
  }

  predicate IsSpace(c: char) {
    c == ' ' || c == '\t' || c == '\n' || c == '\r'
  }

  function SkipSpace(s: string): (t: string)
    ensures |t| <= |s|
  {
    if s != "" && IsSpace(s[0]) then SkipSpace(s[1..]) else s
  }

  /** Skips white space and then the given punctuation. */
  function Expect(s: string, c: char): (r: Option<string>)
    ensures r.Some? ==> |r.value| < |s|
  {
    var t := SkipSpace(s);
    if t != "" && t[0] == c then Some(t[1..]) else None
  }

  datatype Value = Text(text: string) | Number(number: int)

  /** A string or an integer without a leading zero; the other JSON values are not part of this model. */
  function ReadValue(s: string): (r: Option<(Value, string)>)
    ensures r.Some? ==> |r.value.1| <= |s|
  {
    var t := SkipSpace(s);
    if t == "" then None
    else if t[0] == '"' then
      match ReadChars(t[1..])
      case None => None
      case Some((cs, rest)) => Some((Text(cs), rest))
    else
      match ReadInt(t)
      case None => None
      case Some((n, rest)) =>
        var zeros := if t[0] == '-' then t[1..] else t;
        if (|zeros| >= 2 && zeros[0] == '0' && IsDigit(zeros[1])) || !InRange(n) then None
        else Some((Number(n), rest))
  }

  function LowerCase(c: char): char {
    if 'A' <= c <= 'Z' then (c as int + 32) as char else c
  }

  predicate Matches(name: string, field: string) {
    |name| == |field| && forall i :: 0 <= i < |name| ==> LowerCase(name[i]) == field[i]
  }

  /** Field names match in any letter case, unknown names are skipped, a value of the wrong kind is an error. */
  function SetField(js: JobSpec, name: string, v: Value): Option<JobSpec> {
    if Matches(name, "sessionid") then (if v.Number? then Some(js.(sessionId := v.number)) else None)
    else if Matches(name, "owner") then (if v.Text? then Some(js.(nwo := js.nwo.(owner := v.text))) else None)
    else if Matches(name, "repo") then (if v.Text? then Some(js.(nwo := js.nwo.(repo := v.text))) else None)
    else Some(js)
  }

  /** A member name with its colon. */
  function ReadName(s: string): (r: Option<(string, string)>)
    ensures r.Some? ==> |r.value.1| < |s|
  {
    match Expect(s, '"')
    case None => None
    case Some(afterQuote) =>
      match ReadChars(afterQuote)
      case None => None
      case Some((name, afterName)) =>
        match Expect(afterName, ':')
        case None => None
        case Some(afterColon) => Some((name, afterColon))
  }

  /** One `name : value` member applied to the job spec read so far. */
  function ReadMember(s: string, js: JobSpec): (r: Option<(JobSpec, string)>)
    ensures r.Some? ==> |r.value.1| < |s|
  {
    match ReadName(s)
    case None => None
    case Some((name, afterColon)) =>
      match ReadValue(afterColon)
      case None => None
      case Some((v, rest)) =>
        match SetField(js, name, v)
        case None => None
        case Some(js') => Some((js', rest))
  }

  /** Members separated by commas up to the closing brace; later members overwrite earlier ones. */
  function ReadMembers(s: string, js: JobSpec): Option<JobSpec>
    decreases |s|
  {
    match ReadMember(s, js)
    case None => None
    case Some((js', rest)) =>
      match Expect(rest, ',')
      case Some(more) => ReadMembers(more, js')
      case None =>
        match Expect(rest, '}')
        case None => None
        case Some(end) => if SkipSpace(end) == "" then Some(js') else None
  }

  const ZERO := JobSpec(0, NameWithOwner("", ""))

  function Unmarshal(s: string): Option<JobSpec> {
    match Expect(s, '{')
    case None => None
    case Some(t) =>
      match Expect(t, '}')
      case Some(end) => if SkipSpace(end) == "" then Some(ZERO) else None
      case None => ReadMembers(t, ZERO)
  }

  // ----- The token

  function EncodeJobSpec(js: JobSpec): string {
    Base64.Encode(true, Utf8.Encode(Marshal(js)))
  }

  function DecodeJobSpec(token: string): Option<JobSpec> {
    match Base64.Decode(true, token)
    case None => None
    case Some(data) =>
      match Utf8.Decode(data)
      case None => None
      case Some(text) => Unmarshal(text)
  }

  // ----- Round trip

  lemma Hex4RoundTrip(n: nat, rest: string)
    requires n < 0x1_0000
    ensures ReadHex4(Hex4(n) + rest) == n
  {
    assert n / 0x10 / 0x10 == n / 0x100 && n / 0x100 / 0x10 == n / 0x1000;
  }

  lemma CharRoundTrip(c: char, rest: string)
    ensures ReadChar(Escape(c) + rest) == Some((c, rest))
  {
    var e := Escape(c);
    var s := e + rest;
    assert s[|e|..] == rest;
    if |e| == 6 {
      Hex4RoundTrip(c as int, rest);
      assert s[2..] == Hex4(c as int) + rest;
      assert s[2..][4..] == rest;
    }
  }

  lemma CharsEnd(rest: string)
    ensures ReadChars("\"" + rest) == Some(("", rest))
  {
    assert ("\"" + rest)[1..] == rest;
  }

  lemma CharsStep(c: char, tail: string, text: string, rest: string)
    requires ReadChars(tail) == Some((text, rest))
    ensures ReadChars(Escape(c) + tail) == Some(([c] + text, rest))
  {
    CharRoundTrip(c, tail);
  }

  function Quoted(text: string, rest: string): string {
    EscapeAll(text) + "\"" + rest
  }

  lemma QuotedStep(text: string, rest: string)
    requires text != ""
    ensures Quoted(text, rest) == Escape(text[0]) + Quoted(text[1..], rest)
  {
    assert EscapeAll(text) == Escape(text[0]) + EscapeAll(text[1..]);
  }

  lemma {:induction false} CharsRoundTrip(text: string, rest: string)
    ensures ReadChars(Quoted(text, rest)) == Some((text, rest))
  {
    if text == "" {
      assert Quoted(text, rest) == "\"" + rest;
      CharsEnd(rest);
    } else {
      QuotedStep(text, rest);
      CharsRoundTrip(text[1..], rest);
      CharsStep(text[0], Quoted(text[1..], rest), text[1..], rest);
      assert text == [text[0]] + text[1..];
    }
  }

  predicate Plain(s: string) {
    forall i :: 0 <= i < |s| ==> Escape(s[i]) == [s[i]]
  }

  lemma {:induction false} PlainEscape(s: string)
    requires Plain(s)
    ensures EscapeAll(s) == s
  {
    if s != "" {
      PlainEscape(s[1..]);
      assert s == [s[0]] + s[1..];
    }
  }

  lemma ExpectHere(c: char, rest: string)
    requires !IsSpace(c)
    ensures Expect([c] + rest, c) == Some(rest)
  {
    assert ([c] + rest)[1..] == rest;
  }

  lemma NameHere(name: string, value: string)
    requires Plain(name)
    ensures ReadName(Key(name) + value) == Some((name, value))
  {
    var afterQuote := name + "\"" + (":" + value);
    assert Key(name) + value == ['"'] + afterQuote;
    ExpectHere('"', afterQuote);
    PlainEscape(name);
    CharsRoundTrip(name, ":" + value);
    ExpectHere(':', value);
  }

  lemma TextHere(text: string, rest: string)
    ensures ReadValue(Quote(text) + rest) == Some((Text(text), rest))
  {
    var t := Quote(text) + rest;
    assert t[1..] == EscapeAll(text) + "\"" + rest;
    CharsRoundTrip(text, rest);
  }

  /** A number as JSON has it: a minus or a digit first, and no digit after a leading zero. */
  predicate NumberStart(t: string) {
    && t != "" && (t[0] == '-' || IsDigit(t[0]))
    && var zeros := if t[0] == '-' then t[1..] else t;
       |zeros| >= 2 && !(zeros[0] == '0' && IsDigit(zeros[1]))
  }

  lemma DigitsStart(n: nat, rest: string)
    requires rest != "" && !IsDigit(rest[0])
    ensures var t := Digits(n) + rest; |t| >= 2 && IsDigit(t[0]) && !(t[0] == '0' && IsDigit(t[1]))
  {
    var ds := Digits(n);
    assert IsDigit(ds[0]);
    assert (ds + rest)[1] == if |ds| == 1 then rest[0] else ds[1];
  }

  lemma ItoaStart(n: int, rest: string)
    requires rest != "" && !IsDigit(rest[0])
    ensures NumberStart(Itoa(n) + rest)
  {
    var t := Itoa(n) + rest;
    if n < 0 {
      DigitsStart(-n, rest);
      assert t[0] == '-' && t[1..] == Digits(-n) + rest;
    } else {
      DigitsStart(n, rest);
      assert t == Digits(n) + rest;
    }
  }

  lemma NumberRead(t: string, n: int, rest: string)
    requires NumberStart(t) && ReadInt(t) == Some((n, rest)) && InRange(n)
    ensures ReadValue(t) == Some((Number(n), rest))
  {
  }

  lemma NumberHere(n: int, rest: string)
    requires InRange(n) && rest != "" && !IsDigit(rest[0])
    ensures ReadValue(Itoa(n) + rest) == Some((Number(n), rest))
  {
    ReadIntItoa(n, rest);
    ItoaStart(n, rest);
    NumberRead(Itoa(n) + rest, n, rest);
  }

  /** A member followed by a comma hands over to the next one. */
  lemma MembersStep(name: string, value: string, v: Value, more: string, js: JobSpec, js': JobSpec)
    requires Plain(name) && SetField(js, name, v) == Some(js')
    requires ReadValue(value + "," + more) == Some((v, "," + more))
    ensures ReadMembers(Key(name) + value + "," + more, js) == ReadMembers(more, js')
  {
    assert Key(name) + value + "," + more == Key(name) + (value + "," + more);
    NameHere(name, value + "," + more);
    ExpectHere(',', more);
  }

  lemma MembersEnd(name: string, value: string, v: Value, js: JobSpec, js': JobSpec)
    requires Plain(name) && SetField(js, name, v) == Some(js')
    requires ReadValue(value + "}") == Some((v, "}"))
    ensures ReadMembers(Key(name) + value + "}", js) == Some(js')
  {
    assert Key(name) + value + "}" == Key(name) + (value + "}");
    NameHere(name, value + "}");
    ExpectHere('}', "");
    assert "}" == ['}'] + "";
  }

  function RepoMember(js: JobSpec): string {
    Key("Repo") + Quote(js.nwo.repo) + "}"
  }

  function OwnerMembers(js: JobSpec): string {
    Key("Owner") + Quote(js.nwo.owner) + "," + RepoMember(js)
  }

  function AllMembers(js: JobSpec): string {
    Key("SessionID") + Itoa(js.sessionId) + "," + OwnerMembers(js)
  }

  lemma ReadRepo(js: JobSpec)
    ensures ReadMembers(RepoMember(js), js.(nwo := js.nwo.(repo := ""))) == Some(js)
  {
    RepoField();
    TextHere(js.nwo.repo, "}");
    MembersEnd("Repo", Quote(js.nwo.repo), Text(js.nwo.repo), js.(nwo := js.nwo.(repo := "")), js);
  }

  lemma ReadOwner(js: JobSpec)
    ensures ReadMembers(OwnerMembers(js), ZERO.(sessionId := js.sessionId)) == Some(js)
  {
    var js1, js2 := ZERO.(sessionId := js.sessionId), js.(nwo := js.nwo.(repo := ""));
    OwnerField();
    TextHere(js.nwo.owner, "," + RepoMember(js));
    assert Quote(js.nwo.owner) + "," + RepoMember(js) == Quote(js.nwo.owner) + ("," + RepoMember(js));
    MembersStep("Owner", Quote(js.nwo.owner), Text(js.nwo.owner), RepoMember(js), js1, js2);
    ReadRepo(js);
  }

  lemma SessionValue(n: int, more: string)
    requires InRange(n)
    ensures ReadValue(Itoa(n) + "," + more) == Some((Number(n), "," + more))
  {
    NumberHere(n, "," + more);
    assert Itoa(n) + "," + more == Itoa(n) + ("," + more);
  }

  lemma SessionSets(n: int)
    ensures Plain("SessionID") && SetField(ZERO, "SessionID", Number(n)) == Some(ZERO.(sessionId := n))
  {
    SessionField();
  }

  lemma SessionStep(n: int, more: string)
    requires InRange(n)
    ensures ReadMembers(Key("SessionID") + Itoa(n) + "," + more, ZERO) == ReadMembers(more, ZERO.(sessionId := n))
  {
    SessionSets(n);
    SessionValue(n, more);
    MembersStep("SessionID", Itoa(n), Number(n), more, ZERO, ZERO.(sessionId := n));
  }

  lemma ReadSession(js: JobSpec)
    requires InRange(js.sessionId)
    ensures ReadMembers(AllMembers(js), ZERO) == Some(js)
  {
    SessionStep(js.sessionId, OwnerMembers(js));
    ReadOwner(js);
  }

  /** The JSON text of a job spec reads back as that job spec, whatever characters its names contain. */
  lemma MarshalRoundTrip(js: JobSpec)
    requires InRange(js.sessionId)
    ensures Unmarshal(Marshal(js)) == Some(js)
  {
    assert Marshal(js) == "{" + AllMembers(js);
    ReadSession(js);
    UnmarshalMembers(AllMembers(js));
  }

  lemma UnmarshalMembers(m: string)
    requires m != "" && m[0] == '"'
    ensures Unmarshal("{" + m) == ReadMembers(m, ZERO)
  {
    ExpectHere('{', m);
  }

  lemma SessionField()
    ensures Matches("SessionID", "sessionid") && Plain("SessionID")
  {
  }

  lemma OwnerField()
    ensures !Matches("Owner", "sessionid") && Matches("Owner", "owner") && Plain("Owner")
  {
  }

  lemma RepoField()
    ensures !Matches("Repo", "sessionid") && !Matches("Repo", "owner") && Matches("Repo", "repo") && Plain("Repo")
  {
  }

  lemma FieldKeys()
    ensures Key("SessionID") == "\"SessionID\":" && Key("Owner") == "\"Owner\":" && Key("Repo") == "\"Repo\":"
  {
  }

  lemma QuotePlain(s: string)
    requires Plain(s)
    ensures Quote(s) == "\"" + s + "\""
  {
    PlainEscape(s);
  }

  /** Names without a character to escape stand in the text as they are, under the field names. */
  lemma MarshalPlain(js: JobSpec)
    requires Plain(js.nwo.owner) && Plain(js.nwo.repo)
    ensures Marshal(js) == "{" + ("\"SessionID\":" + Itoa(js.sessionId) + "," +
                                  ("\"Owner\":" + ("\"" + js.nwo.owner + "\"") + "," +
                                   ("\"Repo\":" + ("\"" + js.nwo.repo + "\"") + "}")))
  {
    FieldKeys();
    QuotePlain(js.nwo.owner);
    QuotePlain(js.nwo.repo);
  }

  /** Characters that HTML or a line of JavaScript would trip over. */
  predicate Safe(s: string) {
    forall i :: 0 <= i < |s| ==> s[i] >= ' ' && s[i] !in "<>&" && s[i] as int != 0x2028 && s[i] as int != 0x2029
  }

  lemma EscapeSafe(c: char)
    ensures Safe(Escape(c))
  {
  }

  lemma {:induction false} EscapeAllSafe(s: string)
    ensures Safe(EscapeAll(s))
  {
    if s != "" {
      EscapeSafe(s[0]);
      EscapeAllSafe(s[1..]);
    }
  }

  lemma QuoteSafe(s: string)
    ensures Safe(Quote(s))
  {
    EscapeAllSafe(s);
  }

  lemma ItoaSafe(n: int)
    ensures Safe(Itoa(n))
  {
    assert AllDigits(if n < 0 then Digits(-n) else Digits(n));
  }

  lemma KeysSafe()
    ensures Safe(Key("SessionID")) && Safe(Key("Owner")) && Safe(Key("Repo"))
  {
  }

  lemma MemberSafe(key: string, value: string, tail: string)
    requires Safe(key) && Safe(value) && Safe(tail)
    ensures Safe(key + value + tail)
  {
  }

  lemma SafeConcat(a: string, b: string)
    requires Safe(a) && Safe(b)
    ensures Safe(a + b)
  {
  }

  /** The text of a job spec is free of these characters, whatever its names contain. */
  lemma MarshalSafe(js: JobSpec)
    ensures Safe(Marshal(js))
  {
    KeysSafe();
    ItoaSafe(js.sessionId);
    QuoteSafe(js.nwo.owner);
    QuoteSafe(js.nwo.repo);
    var repo := Key("Repo") + Quote(js.nwo.repo) + "}";
    MemberSafe(Key("Repo"), Quote(js.nwo.repo), "}");
    var owner := Key("Owner") + Quote(js.nwo.owner) + "," + repo;
    MemberSafe(Key("Owner"), Quote(js.nwo.owner), ",");
    SafeConcat(Key("Owner") + Quote(js.nwo.owner) + ",", repo);
    var session := Key("SessionID") + Itoa(js.sessionId) + ",";
    MemberSafe(Key("SessionID"), Itoa(js.sessionId), ",");
    SafeConcat(session, owner);
    SafeConcat("{", session + owner);
    assert Marshal(js) == "{" + (session + owner);
  }

  /** Decoding a token gives back the job spec it was made from. */
  lemma TokenRoundTrip(js: JobSpec)
    requires InRange(js.sessionId)
    ensures DecodeJobSpec(EncodeJobSpec(js)) == Some(js)
  {
    Base64.RoundTrip(true, Utf8.Encode(Marshal(js)));
    Utf8.RoundTrip(Marshal(js));
    MarshalRoundTrip(js);
  }

  /** A token is one path segment: no slash, and no character a URL path would need to escape but padding. */
  lemma TokenIsPathSegment(js: JobSpec, i: nat)
    requires i < |EncodeJobSpec(js)|
    ensures var c := EncodeJobSpec(js)[i];
            c == '=' || c == '-' || c == '_' || '0' <= c <= '9' || 'A' <= c <= 'Z' || 'a' <= c <= 'z'
  {
    Base64.EncodedAlphabet(true, Utf8.Encode(Marshal(js)));
    assert Base64.IsEncodedChar(true, EncodeJobSpec(js)[i]);
  }
}
