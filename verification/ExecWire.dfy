/**
 The wire format of exec events: one JSON object per line, `seq` and `type` first.
 Text is modelled as a sequence of bytes.  The fields after the type are kept as the
 JSON text json.Marshal produced for them.
 */
module ExecWire {

  datatype Kind = Started | Stdout | Stderr | Exit | Error

  function Name(k: Kind): string {
    match k
    case Started => "started"
    case Stdout => "stdout"
    case Stderr => "stderr"
    case Exit => "exit"
    case Error => "error"
  }

  predicate IsTerminal(k: Kind) {
    k.Exit? || k.Error?
  }

  // ---- the structure of a JSON text ----------------------------------------

  /** Where a JSON scanner is: how many braces are open, and whether inside a string or
      just after a backslash in one. */
  datatype Scan = Scan(depth: int, text: bool, escaped: bool)

  const OPEN := Scan(1, false, false)
  const CLOSED := Scan(0, false, false)

  function Next(s: Scan, c: char): Scan {
    if s.escaped then s.(escaped := false)
    else if s.text then (if c == '\\' then s.(escaped := true) else if c == '"' then s.(text := false) else s)
    else if c == '"' then s.(text := true)
    else if c == '{' then s.(depth := s.depth + 1)
    else if c == '}' then s.(depth := s.depth - 1)
    else s
  }

  function After(s: Scan, t: string): Scan {
    if t == [] then s else Next(After(s, t[..|t| - 1]), t[|t| - 1])
  }

  /** The text closes the object left open by `s` with its last byte and not before. */
  predicate Closes(s: Scan, t: string) {
    After(s, t) == CLOSED && forall k :: 0 <= k < |t| ==> After(s, t[..k]).depth > 0
  }

  /** What json.Marshal writes after the type: the rest of the object, on one line. */
  predicate IsTail(t: string) {
    Closes(OPEN, t) && '\n' !in t
  }

  type Tail = t: string | IsTail(t) witness TailWitness()

  function TailWitness(): (t: string)
    ensures IsTail(t)
  {
    assert After(OPEN, "") == OPEN;
    assert "}"[..0] == "";
    "}"
  }

  datatype Response = Response(kind: Kind, tail: Tail)

  // ---- decimal numbers ------------------------------------------------------

  const MAX64 := 0xFFFF_FFFF_FFFF_FFFF

  function Digit(d: nat): char
    requires d < 10
  {
    '0' + d as char
  }

  predicate IsDigit(c: char) {
    '0' <= c <= '9'
  }

  function Decimal(n: nat): (s: string)
    ensures |s| > 0 && forall i :: 0 <= i < |s| ==> IsDigit(s[i])
  {
    if n < 10 then [Digit(n)] else Decimal(n / 10) + [Digit(n % 10)]
  }

  /** strconv.ParseUint in base 10 with 64 bits; -1 stands for its errors. */
  function ParseUint(s: string): (n: int)
    ensures -1 <= n <= MAX64
  {
    if s == [] || exists i :: 0 <= i < |s| && !IsDigit(s[i]) then -1
    else
      var v := Value(s);
      if v <= MAX64 then v else -1
  }

  function Value(s: string): (n: nat)
    requires forall i :: 0 <= i < |s| ==> IsDigit(s[i])
  {
    if s == [] then 0
    else
      assert IsDigit(s[|s| - 1]);
      Value(s[..|s| - 1]) * 10 + (s[|s| - 1] as int - '0' as int)
  }

  lemma {:induction false} ValueOfDecimal(n: nat)
    ensures Value(Decimal(n)) == n
  {
    if n < 10 {
      assert [Digit(n)][..0] == [];
    } else {
      ValueOfDecimal(n / 10);
      assert Decimal(n)[..|Decimal(n)| - 1] == Decimal(n / 10);
    }
  }

  // ---- writing and reading the prefix ----------------------------------------

  const SEQ := "{\"seq\":"
  const TYPE := ",\"type\":\""

  function Head(n: nat, k: Kind): string {
    SEQ + Decimal(n) + TYPE + Name(k) + "\""
  }

  /** json.Marshal of a response with its sequence number. */
  function Marshal(n: nat, r: Response): string {
    Head(n, r.kind) + r.tail
  }

  /** bytes.IndexByte. */
  function IndexOf(s: string, c: char): (i: int)
    ensures i == -1 <==> c !in s
    ensures i >= 0 ==> i < |s| && s[i] == c && c !in s[..i]
    ensures -1 <= i
  {
    if s == [] then -1
    else if s[0] == c then 0
    else
      var j := IndexOf(s[1..], c);
      assert s == [s[0]] + s[1..];
      if j < 0 then -1 else
        assert s[..j + 1] == [s[0]] + s[1..][..j];
        j + 1
  }

  datatype Prefix = NoSeqField | NoSeqEnd | BadSeq | NoType(n: nat) | OpenType(n: nat) | Prefix(n: nat, name: string)

  /** execEventPrefix. */
  function ExecEventPrefix(line: string): Prefix {
    if !(SEQ <= line) then NoSeqField else ReadSeq(line[|SEQ|..])
  }

  function ReadSeq(rest: string): Prefix {
    var comma := IndexOf(rest, ',');
    if comma <= 0 then NoSeqEnd
    else
      var n := ParseUint(rest[..comma]);
      if n < 0 then BadSeq else ReadType(n, rest[comma..])
  }

  function ReadType(n: nat, rest: string): Prefix {
    if !(TYPE <= rest) then NoType(n)
    else
      var end := IndexOf(rest[|TYPE|..], '"');
      if end < 0 then OpenType(n) else Prefix(n, rest[|TYPE|..][..end])
  }

  lemma {:induction false} IndexAfter(p: string, c: char, rest: string)
    requires c !in p
    ensures IndexOf(p + [c] + rest, c) == |p|
  {
    if p != [] {
      IndexAfter(p[1..], c, rest);
      assert (p + [c] + rest)[1..] == p[1..] + [c] + rest;
    }
  }

  lemma TypeRead(n: nat, name: string, tail: string)
    requires '"' !in name
    ensures ReadType(n, TYPE + (name + ['"'] + tail)) == Prefix(n, name)
  {
    var rest := TYPE + (name + ['"'] + tail);
    assert rest[|TYPE|..] == name + ['"'] + tail;
    IndexAfter(name, '"', tail);
    assert (name + ['"'] + tail)[..|name|] == name;
  }

  lemma TailOf(a: string, b: string)
    ensures a <= a + b && (a + b)[|a|..] == b
  {
  }

  lemma SeqRead(n: nat, t: string)
    requires n <= MAX64
    ensures ReadSeq(Decimal(n) + [','] + t) == ReadType(n, [','] + t)
  {
    hide ReadType;
    var d := Decimal(n);
    var rest := d + [','] + t;
    IndexAfter(d, ',', t);
    assert rest[..|d|] == d && rest[|d|..] == [','] + t;
    ValueOfDecimal(n);
  }

  /** A line regrouped around its first comma. */
  lemma Regroup(a: string, d: string, c: char, b: string, name: string, q: string, tail: string, rest: string)
    ensures a + d + ([c] + b) + name + q + tail + rest == a + (d + [c] + (b + (name + q + (tail + rest))))
  {
  }

  /** The proxy recovers seq and type from every line the daemon writes, whatever the
      rest of the event holds and whatever follows it. */
  lemma PrefixRecovered(n: nat, r: Response, rest: string)
    requires n <= MAX64
    ensures ExecEventPrefix(Marshal(n, r) + rest) == Prefix(n, Name(r.kind))
  {
    hide ReadSeq, ReadType;
    var body := Name(r.kind) + ['"'] + (r.tail + rest);
    var b := "\"type\":\"";
    assert TYPE == [','] + b;
    var t := b + body;
    assert [','] + t == TYPE + body;
    var line := Marshal(n, r) + rest;
    Regroup(SEQ, Decimal(n), ',', b, Name(r.kind), "\"", r.tail, rest);
    TailOf(SEQ, Decimal(n) + [','] + t);
    SeqRead(n, t);
    TypeRead(n, Name(r.kind), r.tail + rest);
  }

  // ---- the structure of a whole line -----------------------------------------

  lemma {:induction false} AfterConcat(s: Scan, a: string, b: string)
    ensures After(s, a + b) == After(After(s, a), b)
  {
    if b == [] {
      assert a + b == a;
    } else {
      AfterConcat(s, a, b[..|b| - 1]);
      assert (a + b)[..|a + b| - 1] == a + b[..|b| - 1];
    }
  }

  predicate Plain(c: char) {
    c != '"' && c != '\\' && c != '{' && c != '}'
  }

  lemma {:induction false} PlainText(s: Scan, t: string)
    requires !s.escaped && forall i :: 0 <= i < |t| ==> Plain(t[i])
    ensures After(s, t) == s
  {
    if t != [] { PlainText(s, t[..|t| - 1]); }
  }

  lemma {:induction false} NoBraces(s: Scan, t: string)
    requires '{' !in t && '}' !in t
    ensures After(s, t).depth == s.depth
  {
    if t != [] { NoBraces(s, t[..|t| - 1]); }
  }

  lemma OneChar(s: Scan, c: char)
    ensures After(s, [c]) == Next(s, c)
  {
    assert [c][..0] == [];
  }

  /** A quoted run of plain text leaves the scanner where it was. */
  lemma Quoted(s: Scan, t: string)
    requires !s.escaped && !s.text && forall i :: 0 <= i < |t| ==> Plain(t[i])
    ensures After(s, "\"" + t + "\"") == s
  {
    var q := s.(text := true);
    OneChar(s, '"');
    PlainText(q, t);
    OneChar(q, '"');
    AfterConcat(s, "\"", t);
    AfterConcat(s, "\"" + t, "\"");
  }

  lemma NameQuoted(k: Kind)
    ensures After(OPEN, "\"" + Name(k) + "\"") == OPEN
  {
    Quoted(OPEN, Name(k));
  }

  lemma KeysQuoted()
    ensures After(OPEN, "\"" + "seq" + "\"") == OPEN && After(OPEN, "\"" + "type" + "\"") == OPEN
  {
    Quoted(OPEN, "seq");
    Quoted(OPEN, "type");
  }

  lemma PartsPlain(n: nat)
    ensures After(OPEN, ":" + Decimal(n) + ",") == OPEN && After(OPEN, ":") == OPEN
  {
    PlainText(OPEN, ":" + Decimal(n) + ",");
    PlainText(OPEN, ":");
  }

  /** The head of a line opens one object and is otherwise balanced. */
  lemma HeadOpens(n: nat, k: Kind)
    ensures After(CLOSED, Head(n, k)) == OPEN
  {
    hide After, Decimal, Name;
    var a, b := ":" + Decimal(n) + ",", ":";
    var s1, s2, s3 := "\"" + "seq" + "\"", "\"" + "type" + "\"", "\"" + Name(k) + "\"";
    HeadParts(n, k);
    KeysQuoted();
    NameQuoted(k);
    PartsPlain(n);
    Balanced3(OPEN, s1, a, s2);
    Balanced3(OPEN, s1 + a + s2, b, s3);
    OneChar(CLOSED, '{');
    AfterConcat(CLOSED, "{", s1 + a + s2 + b + s3);
  }

  lemma HeadParts(n: nat, k: Kind)
    ensures Head(n, k) ==
      "{" + ("\"" + "seq" + "\"" + (":" + Decimal(n) + ",") + ("\"" + "type" + "\"") + ":" + ("\"" + Name(k) + "\""))
  {
    assert SEQ == "{" + ("\"" + "seq" + "\"") + ":";
    assert TYPE == "," + ("\"" + "type" + "\"") + ":" + "\"";
    HeadRegroup("{", "\"" + "seq" + "\"", ":", Decimal(n), ",", "\"" + "type" + "\"", ":", "\"", Name(k));
  }

  lemma HeadRegroup(a: string, b: string, c: string, d: string, e: string, f: string, g: string, q: string,
                    name: string)
    ensures (a + b + c) + d + (e + f + g + q) + name + q == a + (b + (c + d + e) + f + g + (q + name + q))
  {
  }

  lemma Balanced3(s: Scan, a: string, b: string, c: string)
    requires After(s, a) == s && After(s, b) == s && After(s, c) == s
    ensures After(s, a + b + c) == s
  {
    hide After;
    AfterConcat(s, a, b);
    AfterConcat(s, a + b, c);
  }

  lemma HeadPrefix(n: nat, k: Kind, m: nat)
    requires 0 < m <= |Head(n, k)|
    ensures After(CLOSED, Head(n, k)[..m]).depth == 1
  {
    var h := Head(n, k);
    var u := h[1..m];
    assert h[..m] == "{" + u;
    forall i | 1 <= i < |h| ensures h[i] != '{' && h[i] != '}' {
      var d := |SEQ| + |Decimal(n)|;
      if |SEQ| <= i < d { assert h[i] == Decimal(n)[i - |SEQ|]; }
      else if d <= i < d + |TYPE| { assert h[i] == TYPE[i - d]; }
      else if d + |TYPE| <= i < |h| - 1 { assert h[i] == Name(k)[i - d - |TYPE|]; }
    }
    OneChar(CLOSED, '{');
    NoBraces(OPEN, u);
    AfterConcat(CLOSED, "{", u);
  }

  /** A daemon line is a complete JSON text, and no strict prefix of it is one. */
  lemma LineCloses(n: nat, r: Response)
    ensures After(CLOSED, Marshal(n, r)) == CLOSED
    ensures forall m :: 0 < m < |Marshal(n, r)| ==> After(CLOSED, Marshal(n, r)[..m]).depth > 0
  {
    var h, t := Head(n, r.kind), r.tail;
    HeadOpens(n, r.kind);
    AfterConcat(CLOSED, h, t);
    forall m | 0 < m < |h + t| ensures After(CLOSED, (h + t)[..m]).depth > 0 {
      if m <= |h| {
        assert (h + t)[..m] == h[..m];
        HeadPrefix(n, r.kind, m);
      } else {
        assert (h + t)[..m] == h + t[..m - |h|];
        AfterConcat(CLOSED, h, t[..m - |h|]);
      }
    }
  }

  lemma LineOneLine(n: nat, r: Response)
    ensures '\n' !in Marshal(n, r) && |Marshal(n, r)| > 0
    ensures Marshal(n, r)[0] == '{' && Marshal(n, r)[|Marshal(n, r)| - 1] == '}'
  {
    var m := Marshal(n, r);
    assert '\n' !in Head(n, r.kind) by {
      hide After;
      assert forall i :: 0 <= i < |Decimal(n)| ==> IsDigit(Decimal(n)[i]);
    }
    assert m[0] == SEQ[0];
    assert r.tail != [];
    var last := |r.tail| - 1;
    assert m[|m| - 1] == r.tail[last];
    assert After(OPEN, r.tail[..last]).depth > 0;
  }

  // ---- reading a whole line ----------------------------------------------------

  function KindOf(name: string): (k: int)
    ensures -1 <= k < 5
  {
    if name == "started" then 0 else if name == "stdout" then 1 else if name == "stderr" then 2
    else if name == "exit" then 3 else if name == "error" then 4 else -1
  }

  function NthKind(k: int): Kind
    requires 0 <= k < 5
  {
    if k == 0 then Started else if k == 1 then Stdout else if k == 2 then Stderr else if k == 3 then Exit else Error
  }

  /** What parseExecEvent makes of a line. Malformed stands for the InvalidStreamEventError
      that JSON.parse's failure becomes, Unknown for the error event with no seq. */
  datatype Parsed = Malformed | Unknown | Event(n: nat, r: Response)

  /** JSON.parse refuses a text whose braces and quotes do not close; on one that does,
      the fields are read. */
  function ParseExecEvent(line: string): Parsed {
    if After(CLOSED, line) != CLOSED || line == [] then Malformed
    else
      var p := ExecEventPrefix(line);
      if !p.Prefix? || KindOf(p.name) < 0 then Unknown
      else
        var kind := NthKind(KindOf(p.name));
        var h := |Head(p.n, kind)|;
        if h <= |line| && IsTail(line[h..]) then Event(p.n, Response(kind, line[h..])) else Unknown
  }

  /** Reading a line gives back the event it was written from. */
  lemma ParseMarshal(n: nat, r: Response)
    requires n <= MAX64
    ensures ParseExecEvent(Marshal(n, r)) == Event(n, r)
  {
    hide After, IsTail, ExecEventPrefix, Head;
    LineCloses(n, r);
    PrefixRecovered(n, r, "");
    assert Marshal(n, r) + "" == Marshal(n, r);
    assert Marshal(n, r)[|Head(n, r.kind)|..] == r.tail;
    assert Marshal(n, r) != [] by { LineOneLine(n, r); }
  }

  /** A line cut short is refused. */
  lemma ParseCut(n: nat, r: Response, m: nat)
    requires 0 < m < |Marshal(n, r)|
    ensures ParseExecEvent(Marshal(n, r)[..m]) == Malformed
  {
    LineCloses(n, r);
  }
}
