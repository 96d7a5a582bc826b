/** The resumable parser: a state machine over lines inside a state machine over the
    request, fed by a buffer that grows between calls. */
module HttpParser {
  import opened Basics
  import opened Bytes
  import opened HttpRequest
  import opened IOBuffer

  const SPACE: Byte := ' ' as int
  const QUESTION: Byte := '?' as int
  const AMPERSAND: Byte := '&' as int
  const EQUAL: Byte := '=' as int
  const COLON: Byte := ':' as int

  datatype State = RequestLine | Header | Body | GotAll

  datatype LineState = AtMethod | AtUrl | AtVersion | Finish

  /** What a parser object holds. */
  datatype Parser = Parser(state: State, line: LineState, request: Request, bodyLength: nat)

  const START: Parser := Parser(RequestLine, AtMethod, EMPTY, 0)

  // ------------------------------------------------------------------ one request line

  /** A part without '=' is skipped. */
  function AddPart(q: map<Text, Text>, part: Text): map<Text, Text> {
    var equal := Find(part, EQUAL, 0);
    if equal < |part| then q[part[..equal] := part[equal + 1..]] else q
  }

  /** The parts between '&'s, in order. */
  function AddParts(q: map<Text, Text>, text: Text): map<Text, Text>
    decreases |text|
  {
    var ampersand := Find(text, AMPERSAND, 0);
    if ampersand < |text| then AddParts(AddPart(q, text[..ampersand]), text[ampersand + 1..]) else AddPart(q, text)
  }

  function SetUrl(rq: Request, url: Text): Request {
    var question := Find(url, QUESTION, 0);
    if question < |url| then rq.(path := url[..question], queries := AddParts(rq.queries, url[question + 1..]))
    else rq.(path := url)
  }

  datatype LineResult = LineResult(line: LineState, request: Request, ok: bool)

  /** From the version on; `space` is the space found last. */
  function VersionRun(rq: Request, text: Text, space: nat): LineResult {
    var rest := if space < |text| then text[space + 1..] else [];
    if |rest| == 8 && rest[..7] == Ascii("HTTP/1.") && rest[7] == '1' as int then LineResult(Finish, rq.(version := HTTP11), true)
    else if |rest| == 8 && rest[..7] == Ascii("HTTP/1.") && rest[7] == '0' as int then LineResult(Finish, rq.(version := HTTP10), true)
    else LineResult(AtVersion, rq, false)
  }

  /** From the URL on. */
  function UrlRun(rq: Request, text: Text, space: nat): LineResult {
    var next := if space < |text| then Find(text, SPACE, space + 1) else |text|;
    if next < |text| then VersionRun(SetUrl(rq, text[space + 1..next]), text, next) else LineResult(AtUrl, rq, false)
  }

  function LineFrom(line: LineState, rq: Request, text: Text, space: nat): LineResult
    requires space <= |text|
  {
    match line
    case AtMethod =>
      if space == |text| then LineResult(AtMethod, rq, false)
      else
        var rq' := rq.(verb := MethodOf(text[..space]));
        if rq'.verb == INVALID then LineResult(AtMethod, rq', false) else UrlRun(rq', text, space)
    case AtUrl => UrlRun(rq, text, space)
    case AtVersion => VersionRun(rq, text, space)
    case Finish => LineResult(Finish, rq, true)
  }

  /** What parsing the line `text` does; every call starts over at the first space. */
  function LineRun(line: LineState, rq: Request, text: Text): LineResult {
    LineFrom(line, rq, text, Find(text, SPACE, 0))
  }

  /** A malformed line stays rejected when it is parsed again, although the second time the
      parser resumes in the middle with the first space. */
  lemma RejectedAgain(line: LineState, rq: Request, text: Text)
    requires !LineRun(line, rq, text).ok
    ensures var r := LineRun(line, rq, text); LineRun(r.line, r.request, text) == r
  {
    hide Find, MethodOf, SetUrl;
    var space := Find(text, SPACE, 0);
    var r := LineRun(line, rq, text);
    if r.line == AtVersion && line != AtVersion {
      VersionAtFirstSpace(r.request, text, space, Find(text, SPACE, space + 1));
    }
  }

  /** What follows the first space is no version if it contains another space. */
  lemma VersionAtFirstSpace(rq: Request, text: Text, space: nat, next: nat)
    requires space < next < |text| && text[next] == SPACE
    ensures VersionRun(rq, text, space) == LineResult(AtVersion, rq, false)
  {
    var rest := text[space + 1..];
    assert rest[next - space - 1] == SPACE;
    assert forall i :: 0 <= i < 7 ==> Ascii("HTTP/1.")[i] != SPACE;
    if |rest| == 8 && rest[..7] == Ascii("HTTP/1.") {
      assert forall i :: 0 <= i < 7 ==> rest[i] == rest[..7][i];
      assert rest[7] == SPACE;
    }
  }

  // ------------------------------------------------------------------ the whole request

  /** stoi: white space, a sign, digits; none, or too large for an int, throws. */
  function Stoi(text: Text): (r: Option<int>)
    ensures r.Some? ==> -0x8000_0000 <= r.value <= 0x7FFF_FFFF
  {
    var t := TrimLeft(text);
    var negative := t != [] && t[0] == '-' as int;
    var digits := LeadingDigits(if negative || (t != [] && t[0] == '+' as int) then t[1..] else t);
    var n := if negative then -Number(digits) else Number(digits);
    if digits == [] || n < -0x8000_0000 || n > 0x7FFF_FFFF then None else Some(n)
  }

  function LeadingDigits(t: Text): Text {
    if t != [] && IsDigit(t[0]) then [t[0]] + LeadingDigits(t[1..]) else []
  }

  /** An int assigned to a size_t. */
  function AsSize(n: int): nat
    requires -0x8000_0000 <= n
  {
    if n >= 0 then n else n + 0x1_0000_0000_0000_0000
  }

  const CONTENT_LENGTH: Text := Ascii("Content-Length")

  /** A parser and the bytes left unread; `threw` if stoi did. */
  datatype Outcome = Outcome(parser: Parser, unread: Text, threw: bool)

  /** What a header line comes to: on with the next line, the end of the request, or an exception. */
  datatype HeaderResult = More(parser: Parser) | Last(parser: Parser) | Throws

  function HeaderLine(p: Parser, text: Text): HeaderResult {
    var colon := Find(text, COLON, 0);
    if colon < |text| then More(p.(request := WithHeader(p.request, text, colon)))
    else if Lookup(p.request.headers, CONTENT_LENGTH) == [] then Last(p.(state := GotAll))
    else
      var length := Stoi(Lookup(p.request.headers, CONTENT_LENGTH));
      if length.None? then Throws else More(p.(state := Body, bodyLength := AsSize(length.value)))
  }

  function WithHeader(rq: Request, text: Text, colon: nat): Request
    requires colon < |text|
  {
    rq.(headers := rq.headers[text[..colon] := Trim(text[colon + 1..])])
  }

  /** What one call makes of the bytes in the buffer. */
  function Run(p: Parser, input: Text): Outcome
    decreases |input|
  {
    var crlf := FindCrlf(input);
    match p.state
    case RequestLine =>
      if crlf.None? then Outcome(p, input, false)
      else
        var r := LineRun(p.line, p.request, input[..crlf.value]);
        var p' := p.(line := r.line, request := r.request);
        if r.ok then Run(p'.(state := Header), input[crlf.value + 2..]) else Outcome(p', input, false)
    case Header =>
      if crlf.None? then Outcome(p, input, false)
      else
        (match HeaderLine(p, input[..crlf.value])
         case More(p') => Run(p', input[crlf.value + 2..])
         case Last(p') => Outcome(p', input[crlf.value + 2..], false)
         case Throws => Outcome(p, input, true))
    case Body =>
      if |input| >= p.bodyLength then
        Outcome(p.(state := GotAll, request := p.request.(queries := AddParts(p.request.queries, input[..p.bodyLength]))), input, false)
      else Outcome(p, input, false)
    case GotAll => Outcome(p, input, false)
  }

  /** Feeding the bytes in two parts comes to the same as feeding them at once: the same
      state, the same request, the same bytes unread, for every parser and every split. */
  lemma {:induction false} ChunkInvariance(p: Parser, a: Text, b: Text)
    ensures var first := Run(p, a); Run(first.parser, first.unread + b) == Run(p, a + b)
    decreases |a|
  {
    hide LineRun, AddParts, HeaderLine;
    if (p.state == RequestLine || p.state == Header) && FindCrlf(a).Some? {
      var i := FindCrlf(a).value;
      CrlfStays(a, b);
      assert (a + b)[..i] == a[..i] && (a + b)[i + 2..] == a[i + 2..] + b;
      if p.state == RequestLine {
        var r := LineRun(p.line, p.request, a[..i]);
        var p' := p.(line := r.line, request := r.request);
        if r.ok {
          ChunkInvariance(p'.(state := Header), a[i + 2..], b);
        } else {
          RejectedAgain(p.line, p.request, a[..i]);
        }
      } else if HeaderLine(p, a[..i]).More? {
        ChunkInvariance(HeaderLine(p, a[..i]).parser, a[i + 2..], b);
      } else if HeaderLine(p, a[..i]).Last? {
        LastIsGotAll(p, a[..i]);
      }
    } else if p.state == Body && |a| >= p.bodyLength {
      assert (a + b)[..p.bodyLength] == a[..p.bodyLength];
    }
  }

  lemma LastIsGotAll(p: Parser, text: Text)
    ensures HeaderLine(p, text).Last? ==> HeaderLine(p, text).parser.state == GotAll
  {
    hide Stoi, Find, WithHeader, Trim, Ascii, Lookup;
  }

  /** Bytes fed in any number of parts. */
  function FeedAll(p: Parser, unread: Text, chunks: seq<Text>): Outcome {
    if chunks == [] then Run(p, unread)
    else
      var before := FeedAll(p, unread, chunks[..|chunks| - 1]);
      Run(before.parser, before.unread + chunks[|chunks| - 1])
  }

  function Joined(chunks: seq<Text>): Text {
    if chunks == [] then [] else Joined(chunks[..|chunks| - 1]) + chunks[|chunks| - 1]
  }

  /** Any split of a byte string comes to the same as the whole. */
  lemma {:induction false} AnySplit(p: Parser, unread: Text, chunks: seq<Text>)
    ensures FeedAll(p, unread, chunks) == Run(p, unread + Joined(chunks))
  {
    hide Run;
    if chunks == [] {
      assert unread + [] == unread;
    } else {
      var init, last := chunks[..|chunks| - 1], chunks[|chunks| - 1];
      AnySplit(p, unread, init);
      ChunkInvariance(p, unread + Joined(init), last);
      assert unread + Joined(init) + last == unread + Joined(chunks);
    }
  }

  // ------------------------------------------------------------------ the parser object

  class HttpParser {
    var state: State
    var line: LineState
    const request: HttpRequest
    var bodyLength: nat

    constructor ()
      ensures fresh(request) && View() == START
    {
      state, line, bodyLength := RequestLine, AtMethod, 0;
      request := new HttpRequest();
    }

    function View(): Parser
      reads this, request
    {
      Parser(state, line, request.View(), bodyLength)
    }

    /** The loop over the parameters of a URL or a form. */
    method AddQueries(text: Text)
      modifies request
      ensures request.View() == old(request.View()).(queries := AddParts(old(request.queries), text))
    {
      hide AddParts, AddPart, Find;
      ghost var target := AddParts(request.queries, text);
      var start: nat := 0;
      var ampersand: nat := Find(text, AMPERSAND, 0);
      assert text[0..] == text;
      while ampersand != |text|
        invariant start <= ampersand <= |text| && ampersand == Find(text, AMPERSAND, start)
        invariant request.View() == old(request.View()).(queries := request.queries)
        invariant AddParts(request.queries, text[start..]) == target
        decreases |text| - start
      {
        AddPartsStep(request.queries, text, start);
        AddOne(text[start..ampersand]);
        start := ampersand + 1;
        ampersand := Find(text, AMPERSAND, start);
      }
      AddPartsStep(request.queries, text, start);
      AddOne(text[start..]);
    }

    /** A parameter, if there is an '='. */
    method AddOne(part: Text)
      modifies request
      ensures request.View() == old(request.View()).(queries := AddPart(old(request.queries), part))
    {
      var equal := Find(part, EQUAL, 0);
      if equal != |part| {
        request.AddQuery(part, equal);
      }
    }

    method SetUrlOf(url: Text)
      modifies request
      ensures request.View() == SetUrl(old(request.View()), url)
    {
      hide Find, AddParts;
      var question := Find(url, QUESTION, 0);
      if question != |url| {
        request.SetPath(url[..question]);
        AddQueries(url[question + 1..]);
      } else {
        request.SetPath(url);
      }
    }

    /** HTTP/1.0 or HTTP/1.1, and nothing else on the line. */
    method SetVersionOf(rest: Text) returns (ok: bool)
      modifies request
      ensures forall text: Text, space: nat :: space < |text| && text[space + 1..] == rest ==>
        VersionRun(old(request.View()), text, space) == LineResult(if ok then Finish else AtVersion, request.View(), ok)
    {
      hide Ascii;
      ok := false;
      if |rest| == 8 && rest[..7] == Ascii("HTTP/1.") {
        if rest[7] == '1' as int {
          request.SetVersion(HTTP11);
          ok := true;
        } else if rest[7] == '0' as int {
          request.SetVersion(HTTP10);
          ok := true;
        }
      }
    }

    /** The inner state machine; resuming in the middle of a line, it has seen that the
        line has a space. */
    method ParseRequestLine(text: Text) returns (ok: bool)
      requires line == AtUrl || line == AtVersion ==> Find(text, SPACE, 0) < |text|
      modifies this`line, request
      ensures LineResult(line, request.View(), ok) == LineRun(old(line), old(request.View()), text)
    {
      hide Find, MethodOf, VersionRun, SetUrl, Ascii;
      var space: nat := Find(text, SPACE, 0);
      ghost var target := LineRun(line, request.View(), text);
      ok := true;
      while ok && line != Finish
        invariant space <= |text| && (line == AtUrl || line == AtVersion ==> space < |text| || !ok)
        invariant if ok then LineFrom(line, request.View(), text, space) == target else LineResult(line, request.View(), ok) == target
        decreases ok, match line case AtMethod => 3 case AtUrl => 2 case AtVersion => 1 case Finish => 0
      {
        match line
        case AtMethod =>
          if space != |text| {
            ok := request.SetMethod(text[..space]);
            ValidMethod(text[..space]);
            if ok { line := AtUrl; }
          } else {
            ok := false;
          }
        case AtUrl =>
          var start := space + 1;
          space := Find(text, SPACE, start);
          if space != |text| {
            SetUrlOf(text[start..space]);
            line := AtVersion;
          } else {
            ok := false;
          }
        case AtVersion =>
          ok := SetVersionOf(text[space + 1..]);
          if ok { line := Finish; }
      }
    }

    /** What `ok` comes to: it is set only when a request line is parsed in this very call;
        on every other path the source returns an indeterminate value. */
    function Judgement(input: Text): Option<bool>
      reads this, request
    {
      var crlf := FindCrlf(input);
      if state == RequestLine && crlf.Some? then Some(LineRun(line, request.View(), input[..crlf.value]).ok) else None
    }

    method LineStep(buf: IOBuffer) returns (ok: Option<bool>, hasMore: bool)
      requires buf.Valid() && state == RequestLine && Ready(View(), buf.Readable())
      modifies this`state, this`line, request, buf`readIndex, buf`writeIndex
      ensures buf.Valid() && ok == old(Judgement(buf.Readable())) && (hasMore ==> state == Header && buf.ReadableSize() < old(buf.ReadableSize()))
      ensures Agrees(hasMore, false, View(), buf.Readable(), Run(old(View()), old(buf.Readable())))
    {
      hide LineRun, Find;
      ok, hasMore := None, false;
      var crlf := buf.FindCRLF();
      if crlf.Some? {
        var good := ParseRequestLine(buf.Readable()[..crlf.value]);
        ok := Some(good);
        if good {
          buf.RetrieveUntil(crlf.value + 2);
          state := Header;
          hasMore := true;
        }
      }
    }

    /** A line with a colon is a field; the first without one ends the headers. */
    method HeaderLineStep(text: Text) returns (threw: bool)
      requires state == Header
      modifies this`state, this`bodyLength, request
      ensures match HeaderLine(old(View()), text)
              case More(p) => !threw && View() == p && state != GotAll
              case Last(p) => !threw && View() == p && state == GotAll
              case Throws => threw && View() == old(View())
    {
      hide Find, Stoi, Trim, Ascii, Lookup;
      threw := false;
      var colon: nat := Find(text, COLON, 0);
      if colon != |text| {
        request.AddHeader(text, colon);
      } else if |request.GetHeader(CONTENT_LENGTH)| == 0 {
        state := GotAll;
      } else {
        var length := Stoi(request.GetHeader(CONTENT_LENGTH));
        if length.None? {
          threw := true;
        } else {
          bodyLength := AsSize(length.value);
          state := Body;
        }
      }
    }

    method HeaderStep(buf: IOBuffer) returns (hasMore: bool, threw: bool)
      requires buf.Valid() && state == Header
      modifies this`state, this`bodyLength, request, buf`readIndex, buf`writeIndex
      ensures buf.Valid() && state != RequestLine && (hasMore ==> buf.ReadableSize() < old(buf.ReadableSize()))
      ensures Agrees(hasMore, threw, View(), buf.Readable(), Run(old(View()), old(buf.Readable())))
    {
      hide HeaderLine;
      hasMore, threw := false, false;
      var crlf := buf.FindCRLF();
      if crlf.Some? {
        HeaderStates(View(), buf.Readable()[..crlf.value]);
        threw := HeaderLineStep(buf.Readable()[..crlf.value]);
        if !threw {
          hasMore := state != GotAll;
          buf.RetrieveUntil(crlf.value + 2);
        }
      }
    }

    /** The body stays in the buffer. */
    method BodyStep(buf: IOBuffer)
      requires buf.Valid() && state == Body
      modifies this`state, request
      ensures state != RequestLine
      ensures Agrees(false, false, View(), buf.Readable(), Run(old(View()), old(buf.Readable())))
    {
      hide AddParts;
      if buf.ReadableSize() >= bodyLength {
        AddQueries(buf.Readable()[..bodyLength]);
        state := GotAll;
      }
    }

    /** The outer state machine. */
    method ParseRequest(buf: IOBuffer) returns (verdict: Verdict)
      requires buf.Valid() && Ready(View(), buf.Readable())
      modifies this`state, this`line, this`bodyLength, request, buf`readIndex, buf`writeIndex
      ensures buf.Valid()
      ensures Outcome(View(), buf.Readable(), verdict.Threw?) == Run(old(View()), old(buf.Readable()))
      ensures verdict.Returned? ==> verdict.ok == old(Judgement(buf.Readable()))
    {
      hide Run, LineRun, Find, FindCrlf;
      ghost var p, input, judgement := View(), buf.Readable(), Judgement(buf.Readable());
      NothingLeft(p, input);
      var hasMore, ok, threw := true, None, false;
      while hasMore
        invariant buf.Valid() && Agrees(hasMore, threw, View(), buf.Readable(), Run(p, input))
        invariant if hasMore && state == RequestLine then View() == p && buf.Readable() == input && ok.None? else ok == judgement
        decreases hasMore, buf.ReadableSize()
      {
        match state
        case RequestLine => ok, hasMore := LineStep(buf);
        case Header => hasMore, threw := HeaderStep(buf);
        case Body => BodyStep(buf); hasMore := false;
        case GotAll => NothingLeft(View(), buf.Readable()); hasMore := false;
      }
      verdict := if threw then Threw else Returned(ok);
    }
  }

  lemma NothingLeft(p: Parser, input: Text)
    ensures p.state == GotAll ==> Run(p, input) == Outcome(p, input, false)
  {
  }

  /** Either what is left to do leads to `target`, or it has been reached. */
  ghost predicate Agrees(hasMore: bool, threw: bool, p: Parser, unread: Text, target: Outcome) {
    if hasMore then Run(p, unread) == target && !threw else Outcome(p, unread, threw) == target
  }

  /** An exception from stoi passes through; the line that caused it stays unread. */
  datatype Verdict = Returned(ok: Option<bool>) | Threw

  /** Bytes come in any number of parts, with a call after each: whatever the split, the
      parser ends in the state, with the request and the bytes unread, that one call on
      the whole leads to. An exception does not change that. */
  method Feed(chunks: seq<Text>) returns (parser: HttpParser, buf: IOBuffer)
    ensures buf.Valid()
    ensures var all := Run(START, Joined(chunks)); parser.View() == all.parser && buf.Readable() == all.unread
  {
    hide Run, FeedAll;
    parser := new HttpParser();
    buf := new IOBuffer(INITIAL_SIZE);
    StartIsReady();
    for i := 0 to |chunks|
      invariant buf.Valid() && fresh(parser) && fresh(parser.request) && fresh(buf) && fresh(buf.buffer)
      invariant Ready(parser.View(), buf.Readable())
      invariant var before := Run(START, Joined(chunks[..i])); parser.View() == before.parser && buf.Readable() == before.unread
    {
      ghost var p, unread := parser.View(), buf.Readable();
      buf.Append(chunks[i]);
      ReadyMore(p, unread, chunks[i]);
      var verdict := parser.ParseRequest(buf);
      RunIsReady(p, unread + chunks[i]);
      ChunkInvariance(START, Joined(chunks[..i]), chunks[i]);
      assert chunks[..i + 1][..i] == chunks[..i];
    }
    assert chunks[..|chunks|] == chunks;
  }

  /** A parser in the middle of a request line has the line in front of it. */
  ghost predicate Ready(p: Parser, input: Text) {
    p.state == RequestLine && (p.line == AtUrl || p.line == AtVersion) ==>
      FindCrlf(input).Some? && Find(input[..FindCrlf(input).value], SPACE, 0) < FindCrlf(input).value
  }

  lemma StartIsReady()
    ensures Ready(START, []) && Run(START, []) == Outcome(START, [], false)
  {
  }

  lemma ReadyMore(p: Parser, input: Text, more: Text)
    requires Ready(p, input)
    ensures Ready(p, input + more)
  {
    hide Find;
    if FindCrlf(input).Some? {
      CrlfStays(input, more);
      assert (input + more)[..FindCrlf(input).value] == input[..FindCrlf(input).value];
    }
  }

  /** Whatever a call leaves behind, the next one can resume. */
  lemma {:induction false} RunIsReady(p: Parser, input: Text)
    requires Ready(p, input)
    ensures var r := Run(p, input); Ready(r.parser, r.unread)
    decreases |input|
  {
    hide Find, HeaderLine, MethodOf, SetUrl, VersionRun, AddParts;
    var crlf := FindCrlf(input);
    if p.state == RequestLine && crlf.Some? {
      var r := LineRun(p.line, p.request, input[..crlf.value]);
      if r.ok { RunIsReady(p.(line := r.line, request := r.request, state := Header), input[crlf.value + 2..]); }
    } else if p.state == Header && crlf.Some? {
      var r := HeaderLine(p, input[..crlf.value]);
      HeaderStates(p, input[..crlf.value]);
      if r.More? { RunIsReady(r.parser, input[crlf.value + 2..]); }
    }
  }

  lemma HeaderStates(p: Parser, text: Text)
    requires p.state == Header
    ensures HeaderLine(p, text).More? ==> HeaderLine(p, text).parser.state == Header || HeaderLine(p, text).parser.state == Body
    ensures HeaderLine(p, text).Last? ==> HeaderLine(p, text).parser.state == GotAll
  {
    hide Stoi, Find, WithHeader, Trim, Ascii, Lookup;
  }

  lemma ValidMethod(m: Text)
    ensures MethodOf(m) != INVALID <==> m in {Ascii("GET"), Ascii("POST"), Ascii("HEAD"), Ascii("PUT"), Ascii("DELETE")}
  {
    hide Ascii;
  }

  /** Find is characterised by what it promises. */
  lemma {:induction false} FindIs(s: seq<Byte>, b: Byte, from: nat, r: nat)
    requires from <= r <= |s| && (forall i :: from <= i < r ==> s[i] != b) && (r < |s| ==> s[r] == b)
    ensures Find(s, b, from) == r
    decreases r - from
  {
    if from < r {
      FindIs(s, b, from + 1, r);
    }
  }

  /** One parameter is taken off. */
  lemma AddPartsStep(q: map<Text, Text>, text: Text, start: nat)
    requires start <= |text|
    ensures var ampersand := Find(text, AMPERSAND, start);
            AddParts(q, text[start..]) ==
            if ampersand < |text| then AddParts(AddPart(q, text[start..ampersand]), text[ampersand + 1..]) else AddPart(q, text[start..])
  {
    hide AddPart, Find;
    var ampersand: nat := Find(text, AMPERSAND, start);
    var rest := text[start..];
    FindIs(rest, AMPERSAND, 0, ampersand - start);
    if ampersand < |text| {
      assert rest[..ampersand - start] == text[start..ampersand] && rest[ampersand - start + 1..] == text[ampersand + 1..];
    }
  }
}
