/** Printing a request, with or without a form as its body, and parsing it back (sections
    3.1.1, 3.2 and 3.3.2 of RFC 7230). */
module HttpPrint {
  import opened Basics
  import opened Bytes
  import opened HttpRequest
  import opened HttpParser
  import LogStream

  datatype Pair = Pair(key: Text, value: Text)

  /** What a list of fields means: later ones win. */
  function Collected(m: map<Text, Text>, pairs: seq<Pair>): map<Text, Text>
    decreases |pairs|
  {
    if pairs == [] then m else Collected(m[pairs[0].key := pairs[0].value], pairs[1..])
  }

  /** What stands between two '&'s: a key and a value, or something without an '='. */
  datatype Part = Given(key: Text, value: Text) | Lone(text: Text)

  /** What a list of parts means: those without an '=' say nothing, later ones win. */
  function Gathered(m: map<Text, Text>, parts: seq<Part>): map<Text, Text>
    decreases |parts|
  {
    if parts == [] then m
    else Gathered(if parts[0].Given? then m[parts[0].key := parts[0].value] else m, parts[1..])
  }

  const CRLF: Text := [CR, LF]

  function PrintPart(q: Part): Text {
    match q
    case Given(key, value) => key + [EQUAL] + value
    case Lone(text) => text
  }

  function PrintParts(qs: seq<Part>): Text {
    if qs == [] then []
    else PrintPart(qs[0]) + (if |qs| == 1 then [] else [AMPERSAND] + PrintParts(qs[1..]))
  }

  function PrintUrl(path: Text, qs: seq<Part>): Text {
    path + (if qs == [] then [] else [QUESTION] + PrintParts(qs))
  }

  function VersionStr(v: Version): Text {
    Ascii(if v == HTTP11 then "HTTP/1.1" else "HTTP/1.0")
  }

  function PrintLine(m: Method, path: Text, qs: seq<Part>, v: Version): Text {
    MethodStr(m) + [SPACE] + (PrintUrl(path, qs) + [SPACE] + VersionStr(v))
  }

  function PrintField(h: Pair): Text {
    h.key + [COLON] + ([SPACE] + h.value)
  }

  /** The header fields, a line without a colon, and whatever follows. */
  function PrintHeaders(hs: seq<Pair>, last: Text, suffix: Text): Text {
    if hs == [] then last + (CRLF + suffix) else PrintField(hs[0]) + (CRLF + PrintHeaders(hs[1..], last, suffix))
  }

  function Print(m: Method, path: Text, qs: seq<Part>, v: Version, hs: seq<Pair>, last: Text, suffix: Text): Text {
    PrintLine(m, path, qs, v) + (CRLF + PrintHeaders(hs, last, suffix))
  }

  // ------------------------------------------------------------------ what can be printed

  predicate Free(s: Text, stops: set<Byte>) {
    forall i :: 0 <= i < |s| ==> s[i] !in stops
  }

  /** A parameter of a form. */
  predicate GoodPart(q: Part) {
    match q
    case Given(key, value) => Free(key, {AMPERSAND, EQUAL}) && Free(value, {AMPERSAND})
    case Lone(text) => Free(text, {AMPERSAND, EQUAL})
  }

  /** A parameter of a URL. */
  predicate GoodQuery(q: Part) {
    GoodPart(q) && Free(PrintPart(q), {SPACE, CR})
  }

  predicate GoodHeader(h: Pair) {
    Free(h.key, {COLON, CR}) && Free(h.value, {CR}) && Bare(h.value)
  }

  /** Five methods, two versions, parts free of the delimiters that end them, values
      without white space around them; the first line without a colon ends the fields. */
  predicate Printable(m: Method, path: Text, qs: seq<Part>, v: Version, hs: seq<Pair>, last: Text) {
    && m != INVALID && v != UNKNOWN
    && Free(path, {SPACE, QUESTION, CR})
    && (forall i :: 0 <= i < |qs| ==> GoodQuery(qs[i]))
    && (forall i :: 0 <= i < |hs| ==> GoodHeader(hs[i]))
    && Free(last, {COLON, CR})
  }

  /** What the Content-Length field says. */
  function LengthField(hs: seq<Pair>): Text {
    Lookup(Collected(map[], hs), CONTENT_LENGTH)
  }

  /** An ordinary request: GET /index?page=1&new, with a Host field, and the empty line. */
  lemma PlainIsPrintable()
    ensures Printable(GET, Ascii("/index"), [Given(Ascii("page"), Ascii("1")), Lone(Ascii("new"))], HTTP11, [Pair(Ascii("Host"), Ascii("peer"))], [])
    ensures LengthField([Pair(Ascii("Host"), Ascii("peer"))]) == []
  {
    hide Ascii;
    var host, peer := Ascii("Host"), Ascii("peer");
    assert Collected(map[], [Pair(host, peer)]) == map[host := peer] by {
      assert [Pair(host, peer)][1..] == [];
    }
    assert |host| != |CONTENT_LENGTH|;
  }

  /** A form: POST /f, with the length of the body. */
  lemma FormIsPrintable(n: nat)
    ensures Printable(POST, Ascii("/f"), [], HTTP11, [Pair(CONTENT_LENGTH, LogStream.Text(n))], [])
    ensures LengthField([Pair(CONTENT_LENGTH, LogStream.Text(n))]) == LogStream.Text(n)
  {
    hide Ascii, LogStream.Text;
    var h := Pair(CONTENT_LENGTH, LogStream.Text(n));
    assert Collected(map[], [h]) == map[CONTENT_LENGTH := h.value] by {
      assert [h][1..] == [];
    }
    DecimalIsBare(n);
  }

  lemma DecimalIsBare(n: int)
    ensures Bare(LogStream.Text(n)) && Free(LogStream.Text(n), {CR}) && LogStream.Text(n) != []
  {
    hide LogStream.Text;
    LogStream.TextRoundTrip(n);
    var t := LogStream.Text(n);
    assert forall i :: 0 <= i < |t| ==> IsDigit(t[i]) || t[i] == '-' as int by {
      assert forall i :: 0 < i < |t| ==> t[i] == t[1..][i - 1];
    }
  }

  // ------------------------------------------------------------------ searching printed text

  lemma FindStop(a: Text, b: Byte, c: Text)
    requires b !in a
    ensures Find(a + [b] + c, b, 0) == |a|
  {
    FindIs(a + [b] + c, b, 0, |a|);
  }

  lemma FindNone(a: Text, b: Byte)
    requires b !in a
    ensures Find(a, b, 0) == |a|
  {
    FindIs(a, b, 0, |a|);
  }

  lemma CrlfAt(line: Text, rest: Text)
    requires CR !in line
    ensures FindCrlf(line + (CRLF + rest)) == Some(|line|)
    ensures (line + (CRLF + rest))[..|line|] == line && (line + (CRLF + rest))[|line| + 2..] == rest
  {
    var s := line + (CRLF + rest);
    assert CrlfHere(s, |line|);
    assert forall i: nat :: i < |line| ==> s[i] == line[i];
  }

  lemma FreeOf(s: Text, stops: set<Byte>, b: Byte)
    requires Free(s, stops) && b in stops
    ensures b !in s
  {
  }

  // ------------------------------------------------------------------ the request line

  lemma MethodStrings(m: Method)
    requires m != INVALID
    ensures MethodOf(MethodStr(m)) == m && SPACE !in MethodStr(m) && CR !in MethodStr(m)
  {
    hide Ascii;
    assert Ascii("GET") == [71, 69, 84];
    assert Ascii("PUT") == [80, 85, 84];
    assert Ascii("POST") == [80, 79, 83, 84];
    assert Ascii("HEAD") == [72, 69, 65, 68];
    assert Ascii("DELETE") == [68, 69, 76, 69, 84, 69];
  }

  lemma VersionTexts()
    ensures Ascii("HTTP/1.") == [72, 84, 84, 80, 47, 49, 46]
    ensures Ascii("HTTP/1.1") == [72, 84, 84, 80, 47, 49, 46, 49]
    ensures Ascii("HTTP/1.0") == [72, 84, 84, 80, 47, 49, 46, 48]
  {
  }

  lemma VersionStrings(v: Version, rq: Request, text: Text, space: nat)
    requires v != UNKNOWN && space < |text| && text[space + 1..] == VersionStr(v)
    ensures VersionRun(rq, text, space) == LineResult(Finish, rq.(version := v), true)
  {
    hide Ascii;
    VersionTexts();
    var rest := text[space + 1..];
    assert rest[..7] == [72, 84, 84, 80, 47, 49, 46];
  }

  /** The parameters parse back, in order. */
  lemma {:induction false} PartsRoundTrip(m: map<Text, Text>, qs: seq<Part>)
    requires qs != [] && forall i :: 0 <= i < |qs| ==> GoodPart(qs[i])
    ensures AddParts(m, PrintParts(qs)) == Gathered(m, qs)
    decreases |qs|
  {
    var q, part := qs[0], PrintPart(qs[0]);
    var m' := if q.Given? then m[q.key := q.value] else m;
    assert GoodPart(q);
    PartRoundTrip(m, q);
    if |qs| == 1 {
      assert PrintParts(qs) == part;
      FindNone(part, AMPERSAND);
      assert Gathered(m, qs) == m' by { assert qs[1..] == []; }
    } else {
      var rest := PrintParts(qs[1..]);
      assert PrintParts(qs) == part + [AMPERSAND] + rest;
      FindStop(part, AMPERSAND, rest);
      assert (part + [AMPERSAND] + rest)[..|part|] == part && (part + [AMPERSAND] + rest)[|part| + 1..] == rest;
      PartsRoundTrip(m', qs[1..]);
    }
  }

  lemma PartRoundTrip(m: map<Text, Text>, q: Part)
    requires GoodPart(q)
    ensures AddPart(m, PrintPart(q)) == (if q.Given? then m[q.key := q.value] else m) && AMPERSAND !in PrintPart(q)
  {
    match q
    case Given(key, value) =>
      FreeOf(key, {AMPERSAND, EQUAL}, EQUAL);
      FreeOf(key, {AMPERSAND, EQUAL}, AMPERSAND);
      FreeOf(value, {AMPERSAND}, AMPERSAND);
      FindStop(key, EQUAL, value);
      var part := key + [EQUAL] + value;
      assert part[..|key|] == key && part[|key| + 1..] == value;
    case Lone(text) =>
      FreeOf(text, {AMPERSAND, EQUAL}, EQUAL);
      FreeOf(text, {AMPERSAND, EQUAL}, AMPERSAND);
      FindNone(text, EQUAL);
  }

  lemma {:induction false} PartsFree(qs: seq<Part>)
    requires forall i :: 0 <= i < |qs| ==> GoodQuery(qs[i])
    ensures Free(PrintParts(qs), {SPACE, CR})
    decreases |qs|
  {
    if qs != [] {
      assert GoodQuery(qs[0]);
      PartsFree(qs[1..]);
    }
  }

  lemma UrlFree(path: Text, qs: seq<Part>)
    requires Free(path, {SPACE, QUESTION, CR}) && forall i :: 0 <= i < |qs| ==> GoodQuery(qs[i])
    ensures SPACE !in PrintUrl(path, qs) && CR !in PrintUrl(path, qs)
  {
    hide PrintParts;
    PartsFree(qs);
    FreeOf(path, {SPACE, QUESTION, CR}, SPACE);
    FreeOf(path, {SPACE, QUESTION, CR}, CR);
    FreeOf(PrintParts(qs), {SPACE, CR}, SPACE);
    FreeOf(PrintParts(qs), {SPACE, CR}, CR);
  }

  lemma UrlRoundTrip(rq: Request, path: Text, qs: seq<Part>)
    requires Free(path, {SPACE, QUESTION, CR}) && (forall i :: 0 <= i < |qs| ==> GoodQuery(qs[i])) && rq.queries == map[]
    ensures SetUrl(rq, PrintUrl(path, qs)) == rq.(path := path, queries := Gathered(map[], qs))
  {
    hide AddParts, PrintParts, Find, SetUrl, Free, GoodQuery;
    FreeOf(path, {SPACE, QUESTION, CR}, QUESTION);
    if qs == [] {
      UrlAlone(rq, path);
    } else {
      UrlWithParts(rq, path, PrintParts(qs));
      assert forall i :: 0 <= i < |qs| ==> GoodPart(qs[i]) by { QueriesAreParts(qs); }
      PartsRoundTrip(map[], qs);
    }
    UrlText(path, qs);
  }

  lemma QueriesAreParts(qs: seq<Part>)
    requires forall i :: 0 <= i < |qs| ==> GoodQuery(qs[i])
    ensures forall i :: 0 <= i < |qs| ==> GoodPart(qs[i])
  {
    hide GoodPart;
  }

  lemma UrlText(path: Text, qs: seq<Part>)
    ensures PrintUrl(path, qs) == if qs == [] then path else path + [QUESTION] + PrintParts(qs)
  {
    hide PrintParts;
  }

  lemma UrlAlone(rq: Request, path: Text)
    requires QUESTION !in path
    ensures SetUrl(rq, path) == rq.(path := path)
  {
    hide AddParts, Find;
    FindNone(path, QUESTION);
  }

  lemma UrlWithParts(rq: Request, path: Text, parts: Text)
    requires QUESTION !in path
    ensures SetUrl(rq, path + [QUESTION] + parts) == rq.(path := path, queries := AddParts(rq.queries, parts))
  {
    hide AddParts, Find;
    FirstWord(path, QUESTION, parts);
  }

  /** A word, the byte that ends it, and the rest. */
  lemma FirstWord(a: Text, b: Byte, c: Text)
    requires b !in a
    ensures var s := a + [b] + c; Find(s, b, 0) == |a| < |s| && s[..|a|] == a && s[|a| + 1..] == c
  {
    hide Find;
    FindStop(a, b, c);
  }

  /** Searching from a place on is searching the rest. */
  lemma FindShift(s: Text, b: Byte, from: nat)
    requires from <= |s|
    ensures Find(s, b, from) == from + Find(s[from..], b, 0)
  {
    hide Find;
    var q: nat := Find(s[from..], b, 0);
    assert forall i :: from <= i < from + q ==> s[i] == s[from..][i - from];
    FindIs(s, b, from, from + q);
  }

  /** Three words between two spaces. */
  lemma ThreeWords(a: Text, b: Text, c: Text)
    requires SPACE !in a && SPACE !in b
    ensures var line, next := a + [SPACE] + (b + [SPACE] + c), |a| + 1 + |b|;
            && |a| < |line| && line[..|a|] == a && Find(line, SPACE, 0) == |a|
            && next < |line| && Find(line, SPACE, |a| + 1) == next && line[|a| + 1..next] == b && line[next + 1..] == c
  {
    hide Find;
    var tail := b + [SPACE] + c;
    FirstWord(b, SPACE, c);
    WordsAfter(a, tail, |b|);
  }

  lemma WordsAfter(a: Text, tail: Text, n: nat)
    requires SPACE !in a && n < |tail| && Find(tail, SPACE, 0) == n
    ensures var line := a + [SPACE] + tail;
            && |a| < |line| && line[..|a|] == a && Find(line, SPACE, 0) == |a|
            && Find(line, SPACE, |a| + 1) == |a| + 1 + n
            && line[|a| + 1..|a| + 1 + n] == tail[..n] && line[|a| + 1 + n + 1..] == tail[n + 1..]
  {
    hide Find;
    FirstWord(a, SPACE, tail);
    FindShift(a + [SPACE] + tail, SPACE, |a| + 1);
  }

  /** A line with two spaces and a known method gets as far as its version. */
  lemma LineUpToVersion(line: Text, space: nat, next: nat, m: Method)
    requires space < next < |line| && Find(line, SPACE, 0) == space && Find(line, SPACE, space + 1) == next
    requires MethodOf(line[..space]) == m != INVALID
    ensures LineRun(AtMethod, EMPTY, line) == VersionRun(SetUrl(EMPTY.(verb := m), line[space + 1..next]), line, next)
  {
    hide Find, SetUrl, VersionRun, MethodOf;
  }

  lemma LineOfWords(m: Method, verb: Text, url: Text, version: Text)
    requires SPACE !in verb && SPACE !in url && MethodOf(verb) == m != INVALID
    ensures var line, next := verb + [SPACE] + (url + [SPACE] + version), |verb| + 1 + |url|;
            && next < |line| && line[next + 1..] == version
            && LineRun(AtMethod, EMPTY, line) == VersionRun(SetUrl(EMPTY.(verb := m), url), line, next)
  {
    hide *;
    ThreeWords(verb, url, version);
    LineUpToVersion(verb + [SPACE] + (url + [SPACE] + version), |verb|, |verb| + 1 + |url|, m);
  }

  lemma LineRoundTrip(m: Method, path: Text, qs: seq<Part>, v: Version)
    requires m != INVALID && v != UNKNOWN && Free(path, {SPACE, QUESTION, CR}) && forall i :: 0 <= i < |qs| ==> GoodQuery(qs[i])
    ensures LineRun(AtMethod, EMPTY, PrintLine(m, path, qs, v)) == LineResult(Finish, Request(m, v, path, Gathered(map[], qs), map[]), true)
  {
    hide Ascii, PrintUrl, VersionStr, MethodStr, MethodOf, LineRun, SetUrl, VersionRun, Collected, Free, GoodQuery;
    MethodStrings(m);
    UrlFree(path, qs);
    LineOfWords(m, MethodStr(m), PrintUrl(path, qs), VersionStr(v));
    UrlRoundTrip(EMPTY.(verb := m), path, qs);
    VersionStrings(v, SetUrl(EMPTY.(verb := m), PrintUrl(path, qs)), PrintLine(m, path, qs, v), |MethodStr(m)| + 1 + |PrintUrl(path, qs)|);
  }

  lemma LineFree(m: Method, path: Text, qs: seq<Part>, v: Version)
    requires m != INVALID && v != UNKNOWN && Free(path, {SPACE, QUESTION, CR}) && forall i :: 0 <= i < |qs| ==> GoodQuery(qs[i])
    ensures CR !in PrintLine(m, path, qs, v)
  {
    hide Ascii, PrintUrl, VersionStr, MethodStr;
    MethodStrings(m);
    UrlFree(path, qs);
    VersionFree(v);
  }

  lemma VersionFree(v: Version)
    ensures CR !in VersionStr(v)
  {
    hide Ascii;
    VersionTexts();
  }

  /** A request line is accepted if and only if it is one of the five methods, a URL without
      spaces, and one of the two versions, with a single space between each two. */
  lemma LineAccepts(text: Text)
    ensures LineRun(AtMethod, EMPTY, text).ok <==> exists m, url, v :: IsLine(text, m, url, v)
  {
    hide LineRun, MethodOf, MethodStr, VersionStr, SetUrl, VersionRun;
    if exists m, url, v :: IsLine(text, m, url, v) {
      var m, url, v :| IsLine(text, m, url, v);
      MethodStrings(m);
      LineOfWords(m, MethodStr(m), url, VersionStr(v));
      VersionStrings(v, SetUrl(EMPTY.(verb := m), url), text, |MethodStr(m)| + 1 + |url|);
    }
    if LineRun(AtMethod, EMPTY, text).ok {
      var m, url, v := AcceptedWords(text);
      assert IsLine(text, m, url, v);
    }
  }

  predicate IsLine(text: Text, m: Method, url: Text, v: Version) {
    m != INVALID && v != UNKNOWN && SPACE !in url && text == MethodStr(m) + [SPACE] + (url + [SPACE] + VersionStr(v))
  }

  lemma AcceptedWords(text: Text) returns (m: Method, url: Text, v: Version)
    requires LineRun(AtMethod, EMPTY, text).ok
    ensures IsLine(text, m, url, v)
  {
    hide MethodOf, MethodStr, VersionStr, SetUrl, Find;
    var space: nat := Find(text, SPACE, 0);
    var next: nat := Find(text, SPACE, space + 1);
    m, url := MethodOf(text[..space]), text[space + 1..next];
    MethodOfStr(text[..space]);
    v := VersionWord(SetUrl(EMPTY.(verb := m), url), text, next);
    assert text == text[..space] + [SPACE] + (url + [SPACE] + text[next + 1..]);
  }

  lemma MethodOfStr(word: Text)
    ensures MethodOf(word) != INVALID ==> MethodStr(MethodOf(word)) == word
  {
    hide Ascii;
  }

  lemma VersionWord(rq: Request, text: Text, next: nat) returns (v: Version)
    requires next < |text| && VersionRun(rq, text, next).ok
    ensures v != UNKNOWN && text[next + 1..] == VersionStr(v)
  {
    hide Ascii;
    VersionTexts();
    var rest := text[next + 1..];
    assert rest == rest[..7] + [rest[7]];
    v := if rest[7] == '1' as int then HTTP11 else HTTP10;
  }

  // ------------------------------------------------------------------ the header fields

  lemma FieldRoundTrip(p: Parser, h: Pair)
    requires GoodHeader(h)
    ensures HeaderLine(p, PrintField(h)) == More(p.(request := p.request.(headers := p.request.headers[h.key := h.value])))
    ensures CR !in PrintField(h)
  {
    hide Find, Stoi, Lookup, Ascii, Trim, Bare;
    FieldText(h);
    FreeOf(h.key, {COLON, CR}, CR);
    FreeOf(h.value, {CR}, CR);
    FieldValue(h.value);
  }

  lemma FieldText(h: Pair)
    requires Free(h.key, {COLON, CR})
    ensures var line := PrintField(h);
            Find(line, COLON, 0) == |h.key| < |line| && line[..|h.key|] == h.key && line[|h.key| + 1..] == [SPACE] + h.value
  {
    hide Find;
    FreeOf(h.key, {COLON, CR}, COLON);
    FirstWord(h.key, COLON, [SPACE] + h.value);
  }

  lemma FieldValue(value: Text)
    requires Bare(value)
    ensures Trim([SPACE] + value) == value
  {
    hide Trim, Bare;
    TrimIs([SPACE], value, []);
    assert [SPACE] + value + [] == [SPACE] + value;
  }

  /** The fields are collected, later ones winning, up to the line that ends them. */
  lemma {:induction false} HeadersRoundTrip(p: Parser, hs: seq<Pair>, last: Text, suffix: Text)
    requires p.state == Header && forall i :: 0 <= i < |hs| ==> GoodHeader(hs[i])
    ensures Run(p, PrintHeaders(hs, last, suffix)) ==
            Run(p.(request := p.request.(headers := Collected(p.request.headers, hs))), last + (CRLF + suffix))
    decreases |hs|
  {
    hide HeaderLine, PrintField, Lookup, Ascii;
    if hs != [] {
      assert GoodHeader(hs[0]);
      FieldRoundTrip(p, hs[0]);
      CrlfAt(PrintField(hs[0]), PrintHeaders(hs[1..], last, suffix));
      HeadersRoundTrip(p.(request := p.request.(headers := p.request.headers[hs[0].key := hs[0].value])), hs[1..], last, suffix);
    }
  }

  /** At the line that ends the fields: without a Content-Length the request is complete;
      otherwise that many bytes follow, a negative number counting as a size_t; and what is
      no int makes stoi throw, with the line left unread. */
  lemma HeadersEnd(p: Parser, last: Text, suffix: Text)
    requires p.state == Header && Free(last, {COLON, CR})
    ensures var length := Lookup(p.request.headers, CONTENT_LENGTH);
            Run(p, last + (CRLF + suffix)) ==
            if length == [] then Outcome(p.(state := GotAll), suffix, false)
            else match Stoi(length)
                 case None => Outcome(p, last + (CRLF + suffix), true)
                 case Some(n) => Run(p.(state := Body, bodyLength := if n >= 0 then n else n + 0x1_0000_0000_0000_0000), suffix)
  {
    hide Ascii, Stoi, Lookup, Find;
    FreeOf(last, {COLON, CR}, COLON);
    FreeOf(last, {COLON, CR}, CR);
    FindNone(last, COLON);
    CrlfAt(last, suffix);
  }

  // ------------------------------------------------------------------ the whole request

  /** A printed request line and header fields, from a fresh parser. */
  lemma HeadRoundTrip(m: Method, path: Text, qs: seq<Part>, v: Version, hs: seq<Pair>, last: Text, suffix: Text)
    requires Printable(m, path, qs, v, hs, last)
    ensures Run(START, Print(m, path, qs, v, hs, last, suffix)) ==
            Run(Parser(Header, Finish, Request(m, v, path, Gathered(map[], qs), Collected(map[], hs)), 0), last + (CRLF + suffix))
  {
    hide LineRun, HeaderLine, PrintLine, PrintHeaders, Lookup, Ascii;
    LineRoundTrip(m, path, qs, v);
    LineFree(m, path, qs, v);
    CrlfAt(PrintLine(m, path, qs, v), PrintHeaders(hs, last, suffix));
    HeadersRoundTrip(Parser(Header, Finish, Request(m, v, path, Gathered(map[], qs), map[]), 0), hs, last, suffix);
  }

  /** A request without a Content-Length parses back, from a fresh parser, to the same
      method, path, version, parameters and fields, and what follows stays unread. */
  lemma PrintParse(m: Method, path: Text, qs: seq<Part>, v: Version, hs: seq<Pair>, last: Text, suffix: Text)
    requires Printable(m, path, qs, v, hs, last) && LengthField(hs) == []
    ensures Run(START, Print(m, path, qs, v, hs, last, suffix)) ==
            Outcome(Parser(GotAll, Finish, Request(m, v, path, Gathered(map[], qs), Collected(map[], hs)), 0), suffix, false)
  {
    hide Run, Print, Stoi, Ascii;
    HeadRoundTrip(m, path, qs, v, hs, last, suffix);
    HeadersEnd(Parser(Header, Finish, Request(m, v, path, Gathered(map[], qs), Collected(map[], hs)), 0), last, suffix);
  }

  function PrintForm(fs: seq<Part>): Text {
    PrintParts(fs)
  }

  lemma FormRoundTrip(m: map<Text, Text>, fs: seq<Part>)
    requires forall i :: 0 <= i < |fs| ==> GoodPart(fs[i])
    ensures AddParts(m, PrintForm(fs)) == Gathered(m, fs)
  {
    if fs == [] {
      assert Find([], EQUAL, 0) == 0 && Find([], AMPERSAND, 0) == 0;
    } else {
      PartsRoundTrip(m, fs);
    }
  }

  /** A request whose Content-Length is the decimal length of the form behind it: once that
      many bytes are there, the parameters of the form are collected after those of the URL,
      and the form and what follows stay unread; until then the parser waits for the body. */
  lemma FormParse(m: Method, path: Text, qs: seq<Part>, v: Version, hs: seq<Pair>, last: Text, fs: seq<Part>, suffix: Text, part: Text)
    requires Printable(m, path, qs, v, hs, last) && forall i :: 0 <= i < |fs| ==> GoodPart(fs[i])
    requires |PrintForm(fs)| <= 0x7FFF_FFFF && LengthField(hs) == LogStream.Text(|PrintForm(fs)|)
    ensures Run(START, Print(m, path, qs, v, hs, last, PrintForm(fs) + suffix)) ==
            Outcome(Parser(GotAll, Finish, Request(m, v, path, Gathered(Gathered(map[], qs), fs), Collected(map[], hs)), |PrintForm(fs)|),
                    PrintForm(fs) + suffix, false)
    ensures |part| < |PrintForm(fs)| ==>
            Run(START, Print(m, path, qs, v, hs, last, part)) ==
            Outcome(Parser(Body, Finish, Request(m, v, path, Gathered(map[], qs), Collected(map[], hs)), |PrintForm(fs)|), part, false)
  {
    var p := Parser(Body, Finish, Request(m, v, path, Gathered(map[], qs), Collected(map[], hs)), |PrintForm(fs)|);
    FormRoundTrip(Gathered(map[], qs), fs);
    hide *;
    HeadBeforeBody(m, path, qs, v, hs, last, |PrintForm(fs)|, PrintForm(fs) + suffix);
    HeadBeforeBody(m, path, qs, v, hs, last, |PrintForm(fs)|, part);
    BodyRun(p, PrintForm(fs), suffix, part);
  }

  /** With a Content-Length the parser comes to the body. */
  lemma HeadBeforeBody(m: Method, path: Text, qs: seq<Part>, v: Version, hs: seq<Pair>, last: Text, n: nat, rest: Text)
    requires Printable(m, path, qs, v, hs, last) && n <= 0x7FFF_FFFF && LengthField(hs) == LogStream.Text(n)
    ensures Run(START, Print(m, path, qs, v, hs, last, rest)) ==
            Run(Parser(Body, Finish, Request(m, v, path, Gathered(map[], qs), Collected(map[], hs)), n), rest)
  {
    StoiOfDecimal([], n, []);
    assert [] + LogStream.Text(n) + [] == LogStream.Text(n);
    DecimalIsBare(n);
    hide Print, Stoi, Ascii, LogStream.Text, Run;
    HeadRoundTrip(m, path, qs, v, hs, last, rest);
    HeadersEnd(Parser(Header, Finish, Request(m, v, path, Gathered(map[], qs), Collected(map[], hs)), 0), last, rest);
  }

  /** A body that is there is taken as a form and stays unread; one that is not is waited for. */
  lemma BodyRun(p: Parser, body: Text, suffix: Text, part: Text)
    requires p.state == Body && p.bodyLength == |body|
    ensures Run(p, body + suffix) ==
            Outcome(p.(state := GotAll, request := p.request.(queries := AddParts(p.request.queries, body))), body + suffix, false)
    ensures |part| < |body| ==> Run(p, part) == Outcome(p, part, false)
  {
    hide AddParts, LineRun, HeaderLine;
    assert (body + suffix)[..|body|] == body;
  }

  // ------------------------------------------------------------------ the number in Content-Length

  predicate AllDigits(t: Text) {
    forall i :: 0 <= i < |t| ==> IsDigit(t[i])
  }

  lemma {:induction false} LeadingDigitsAre(digits: Text, rest: Text)
    requires AllDigits(digits) && (rest != [] ==> !IsDigit(rest[0]))
    ensures LeadingDigits(digits + rest) == digits
  {
    if digits == [] {
      assert digits + rest == rest;
    } else {
      assert (digits + rest)[1..] == digits[1..] + rest;
      LeadingDigitsAre(digits[1..], rest);
    }
  }

  /** A sign or none. */
  predicate IsSign(sign: Text) {
    sign == [] || sign == ['+' as int] || sign == ['-' as int]
  }

  /** stoi reads white space, a sign, and all the digits that follow, whatever comes after
      them; without a digit, or beyond an int, it throws. */
  lemma StoiIs(lead: Text, sign: Text, digits: Text, rest: Text)
    requires AllWhite(lead) && IsSign(sign) && AllDigits(digits) && (rest != [] ==> !IsDigit(rest[0]))
    requires digits == [] && sign == [] && rest != [] ==> !White(rest[0]) && rest[0] != '+' as int && rest[0] != '-' as int
    ensures var n := if sign == ['-' as int] then -Number(digits) else Number(digits);
            Stoi(lead + sign + digits + rest) == if digits == [] || n < -0x8000_0000 || n > 0x7FFF_FFFF then None else Some(n)
  {
    hide Number, Stoi, TrimLeft, LeadingDigits, IsDigit, White;
    var t := sign + digits + rest;
    assert lead + sign + digits + rest == lead + t;
    assert t != [] ==> t[0] == if sign != [] then sign[0] else if digits != [] then digits[0] else rest[0];
    NotWhite(sign, digits);
    TrimLeftIs(lead, t);
    LeadingDigitsAre(digits, rest);
    assert t == sign + (digits + rest) && (sign != [] ==> t[1..] == digits + rest) && (sign == [] ==> t == digits + rest);
    DigitIsNoSign(t);
    StoiAfter(lead + t, t, sign, digits);
  }

  lemma NotWhite(sign: Text, digits: Text)
    requires IsSign(sign) && AllDigits(digits)
    ensures sign != [] ==> !White(sign[0])
    ensures digits != [] ==> !White(digits[0])
  {
  }

  lemma DigitIsNoSign(t: Text)
    ensures t != [] && IsDigit(t[0]) ==> t[0] != '+' as int && t[0] != '-' as int
  {
  }

  lemma StoiAfter(text: Text, t: Text, sign: Text, digits: Text)
    requires TrimLeft(text) == t && IsSign(sign)
    requires sign != [] ==> t != [] && t[0] == sign[0] && LeadingDigits(t[1..]) == digits
    requires sign == [] ==> LeadingDigits(t) == digits && (t != [] ==> t[0] != '+' as int && t[0] != '-' as int)
    ensures var n := if sign == ['-' as int] then -Number(digits) else Number(digits);
            Stoi(text) == if digits == [] || n < -0x8000_0000 || n > 0x7FFF_FFFF then None else Some(n)
  {
    hide Number, TrimLeft, LeadingDigits;
  }

  /** stoi reads the decimal text of every int, with white space before it and anything but
      a digit after. */
  lemma StoiOfDecimal(lead: Text, n: int, rest: Text)
    requires AllWhite(lead) && -0x8000_0000 <= n <= 0x7FFF_FFFF && (rest != [] ==> !IsDigit(rest[0]))
    ensures Stoi(lead + LogStream.Text(n) + rest) == Some(n)
  {
    hide LogStream.Text, Number, Stoi;
    LogStream.TextRoundTrip(n);
    var t := LogStream.Text(n);
    if t[0] == LogStream.MINUS {
      assert t == ['-' as int] + t[1..];
      assert lead + t + rest == lead + ['-' as int] + t[1..] + rest;
      StoiIs(lead, ['-' as int], t[1..], rest);
    } else {
      assert lead + t + rest == lead + [] + t + rest;
      StoiIs(lead, [], t, rest);
    }
  }
}
