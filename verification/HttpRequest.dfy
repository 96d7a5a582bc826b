/** The result of parsing a request. */
module HttpRequest {
  import opened Bytes

  type Text = seq<Byte>

  datatype Method = INVALID | GET | POST | HEAD | PUT | DELETE

  datatype Version = UNKNOWN | HTTP10 | HTTP11

  /** What a request object holds, apart from the receive time. */
  datatype Request = Request(verb: Method, version: Version, path: Text, queries: map<Text, Text>, headers: map<Text, Text>)

  const EMPTY: Request := Request(INVALID, UNKNOWN, [], map[], map[])

  function Ascii(s: string): (r: Text)
    ensures |r| == |s| && forall i :: 0 <= i < |s| ==> r[i] == s[i] as int % 256
  {
    seq(|s|, i requires 0 <= i < |s| => (s[i] as int % 256) as Byte)
  }

  function MethodOf(m: Text): Method {
    if m == Ascii("GET") then GET
    else if m == Ascii("POST") then POST
    else if m == Ascii("HEAD") then HEAD
    else if m == Ascii("PUT") then PUT
    else if m == Ascii("DELETE") then DELETE
    else INVALID
  }

  function MethodStr(m: Method): Text {
    match m
    case GET => Ascii("GET")
    case POST => Ascii("POST")
    case HEAD => Ascii("HEAD")
    case PUT => Ascii("PUT")
    case DELETE => Ascii("DELETE")
    case INVALID => Ascii("UNKNOWN")
  }

  /** isspace in the C locale. */
  predicate IsSpace(b: Byte) {
    b == 32 || 9 <= b <= 13
  }

  function TrimLeft(s: Text): (r: Text)
    ensures |r| <= |s| && r == s[|s| - |r|..]
    ensures r != [] ==> !IsSpace(r[0])
  {
    if s != [] && IsSpace(s[0]) then TrimLeft(s[1..]) else s
  }

  function TrimRight(s: Text): (r: Text)
    ensures |r| <= |s| && r == s[..|r|]
    ensures r != [] ==> !IsSpace(r[|r| - 1])
  {
    if s != [] && IsSpace(s[|s| - 1]) then TrimRight(s[..|s| - 1]) else s
  }

  function Trim(s: Text): Text {
    TrimRight(TrimLeft(s))
  }

  /** Blank, tab, line feed, vertical tab, form feed and carriage return. */
  predicate White(b: Byte) {
    b in {32, 9, 10, 11, 12, 13}
  }

  predicate AllWhite(s: Text) {
    forall i :: 0 <= i < |s| ==> White(s[i])
  }

  /** No white space at either end. */
  predicate Bare(s: Text) {
    s != [] ==> !White(s[0]) && !White(s[|s| - 1])
  }

  lemma {:induction false} TrimLeftIs(lead: Text, rest: Text)
    requires AllWhite(lead) && (rest != [] ==> !White(rest[0]))
    ensures TrimLeft(lead + rest) == rest
  {
    if lead == [] {
      assert lead + rest == rest;
    } else {
      assert White(lead[0]) && (lead + rest)[1..] == lead[1..] + rest;
      TrimLeftIs(lead[1..], rest);
    }
  }

  lemma {:induction false} TrimRightIs(rest: Text, trail: Text)
    requires AllWhite(trail) && (rest != [] ==> !White(rest[|rest| - 1]))
    ensures TrimRight(rest + trail) == rest
  {
    if trail == [] {
      assert rest + trail == rest;
    } else {
      var n := |trail| - 1;
      assert White(trail[n]) && (rest + trail)[..|rest| + n] == rest + trail[..n];
      TrimRightIs(rest, trail[..n]);
    }
  }

  /** Trimming takes off all the white space around a text, and nothing else. */
  lemma TrimIs(lead: Text, core: Text, trail: Text)
    requires AllWhite(lead) && AllWhite(trail) && Bare(core)
    ensures Trim(lead + core + trail) == core
  {
    hide TrimLeft, TrimRight;
    if core == [] {
      assert lead + core + trail == (lead + trail) + [];
      TrimLeftIs(lead + trail, []);
      TrimRightIs([], []);
      assert trail[..0] + trail[..0] == [];
    } else {
      assert lead + core + trail == lead + (core + trail);
      TrimLeftIs(lead, core + trail);
      TrimRightIs(core, trail);
    }
  }

  function Lookup(m: map<Text, Text>, field: Text): (r: Text)
    ensures field in m ==> r == m[field]
    ensures field !in m ==> r == []
  {
    if field in m then m[field] else []
  }

  method DropLeading(text: Text) returns (value: Text)
    ensures value == TrimLeft(text)
  {
    var i := 0;
    while i < |text| && IsSpace(text[i])
      invariant i <= |text| && TrimLeft(text[i..]) == TrimLeft(text)
    {
      assert text[i..][1..] == text[i + 1..];
      i := i + 1;
    }
    value := text[i..];
  }

  method DropTrailing(text: Text) returns (value: Text)
    ensures value == TrimRight(text)
  {
    value := text;
    while value != [] && IsSpace(value[|value| - 1])
      invariant TrimRight(value) == TrimRight(text)
    {
      value := value[..|value| - 1];
    }
  }

  class HttpRequest {
    var verb: Method
    var version: Version
    var path: Text
    var queries: map<Text, Text>
    var headers: map<Text, Text>

    constructor ()
      ensures View() == EMPTY
    {
      verb, version, path, queries, headers := INVALID, UNKNOWN, [], map[], map[];
    }

    function View(): Request
      reads this
    {
      Request(verb, version, path, queries, headers)
    }

    method SetMethod(m: Text) returns (ok: bool)
      modifies this`verb
      ensures View() == old(View()).(verb := MethodOf(m))
      ensures ok <==> m in {Ascii("GET"), Ascii("POST"), Ascii("HEAD"), Ascii("PUT"), Ascii("DELETE")}
    {
      verb := MethodOf(m);
      ok := verb != INVALID;
    }

    method SetVersion(v: Version)
      modifies this`version
      ensures View() == old(View()).(version := v)
    {
      version := v;
    }

    method SetPath(p: Text)
      modifies this`path
      ensures View() == old(View()).(path := p)
    {
      path := p;
    }

    method AddQuery(text: Text, equal: nat)
      requires equal < |text|
      modifies this`queries
      ensures View() == old(View()).(queries := old(queries)[text[..equal] := text[equal + 1..]])
    {
      queries := queries[text[..equal] := text[equal + 1..]];
    }

    /** The value is what follows the colon, without white space around it. */
    method AddHeader(text: Text, colon: nat)
      requires colon < |text|
      modifies this`headers
      ensures View() == old(View()).(headers := old(headers)[text[..colon] := Trim(text[colon + 1..])])
    {
      var field := text[..colon];
      var value := DropLeading(text[colon + 1..]);
      value := DropTrailing(value);
      headers := headers[field := value];
    }

    function GetQuery(field: Text): (r: Text)
      reads this
      ensures r == Lookup(View().queries, field)
    {
      Lookup(queries, field)
    }

    function GetHeader(field: Text): (r: Text)
      reads this
      ensures r == Lookup(View().headers, field)
    {
      Lookup(headers, field)
    }
  }
}
