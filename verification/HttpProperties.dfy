/**
  What the parser promises: cutting the input anywhere changes nothing but the return value, and requests rendered
  per sections 3.1.1, 3.2 and 3.2.4 of RFC 7230 are read back exactly.
 */
module HttpProperties {
  import opened Bytes
  import opened HttpRequests
  import opened HttpContexts

  // ----- Chunk independence -----

  /** The first CRLF stays the first when bytes are appended. */
  lemma FindCrlfExtend(a: string, b: string)
    requires FindCrlf(a).Some?
    ensures FindCrlf(a + b) == FindCrlf(a)
  {
    var k := FindCrlf(a).value;
    forall j | 0 <= j < k
      ensures !CrlfAt(a + b, j)
    {
      assert CrlfAt(a + b, j) ==> CrlfAt(a, j);
    }
    FindCrlfUnique(a + b, k);
  }

  /** A refused request line leaves traces, but reading it again leaves the same ones. */
  lemma RefusedLineIdempotent(line: string, r: Request)
    requires !RequestLine(line, r).1
    ensures RequestLine(line, RequestLine(line, r).0) == RequestLine(line, r)
  {
  }

  lemma TurnExtend(ctx: Context, a: string, b: string, time: int, ok: bool)
    requires Parsing(ctx) && FindCrlf(a).Some?
    ensures var t, u := ParseTurn(ctx, a, time, ok), ParseTurn(ctx, a + b, time, ok);
            u == t.(unread := t.unread + b)
  {
    FindCrlfExtend(a, b);
    var k := FindCrlf(a).value;
    assert (a + b)[..k] == a[..k];
    assert (a + b)[k + 2..] == a[k + 2..] + b;
  }

  /**
    Parsing `a`, appending `b` and parsing again leaves the same state, request and unread bytes as parsing `a + b` at
    once. The second call reports success exactly when the whole call does and the first had not yet passed the
    request line.
   */
  lemma {:induction false} TwoChunks(ctx: Context, a: string, b: string, time: int, ok: bool)
    requires Parsing(ctx) && (ctx.state.ExpectRequestLine? ==> !ok)
    requires !Parse(ctx, a, time, ok).ctx.state.GotAll?
    ensures var first, whole := Parse(ctx, a, time, ok), Parse(ctx, a + b, time, ok);
            && Parsing(first.ctx)
            && var second := Parse(first.ctx, first.unread + b, time);
               && second.ctx == whole.ctx
               && second.unread == whole.unread
               && (second.ok <==> whole.ok && first.ctx.state.ExpectRequestLine?)
    decreases |a|
  {
    if FindCrlf(a).None? {
      if ctx.state.ExpectHeaders? {
        OkOnlyCarried(ctx, a + b, time, ok);
        OkOnlyCarried(ctx, a + b, time, false);
      }
    } else {
      TurnExtend(ctx, a, b, time, ok);
      var t := ParseTurn(ctx, a, time, ok);
      if t.hasMore {
        TwoChunks(t.ctx, t.unread, b, time, t.ok);
      } else {
        var line := a[..FindCrlf(a).value];
        RefusedLineIdempotent(line, ctx.request);
        TurnExtend(t.ctx, a, b, time, false);
      }
    }
  }

  /** Past the request line a call returns whatever its result was on entry. */
  lemma {:induction false} OkOnlyCarried(ctx: Context, bytes: string, time: int, ok: bool)
    requires ctx.state.ExpectHeaders?
    ensures Parse(ctx, bytes, time, ok) == Parse(ctx, bytes, time, false).(ok := ok)
    decreases |bytes|
  {
    var t := ParseTurn(ctx, bytes, time, ok);
    if t.hasMore {
      OkOnlyCarried(t.ctx, t.unread, time, ok);
    }
  }

  /** Once a request is complete, further bytes are left unread. */
  lemma {:induction false} CompleteStaysComplete(ctx: Context, a: string, b: string, time: int, ok: bool)
    requires Parsing(ctx) && Parse(ctx, a, time, ok).ctx.state.GotAll?
    ensures var first := Parse(ctx, a, time, ok);
            Parse(ctx, a + b, time, ok) == first.(unread := first.unread + b)
    decreases |a|
  {
    if FindCrlf(a).Some? {
      TurnExtend(ctx, a, b, time, ok);
      var t := ParseTurn(ctx, a, time, ok);
      if t.hasMore {
        CompleteStaysComplete(t.ctx, t.unread, b, time, t.ok);
      }
    }
  }

  function Concat(chunks: seq<string>): string {
    if chunks == [] then "" else chunks[0] + Concat(chunks[1..])
  }

  /** Feeds chunks to a parser that is called after each one until the request is complete. */
  function Feed(ctx: Context, unread: string, chunks: seq<string>, time: int): (Context, string)
    requires Parsing(ctx) || ctx.state.GotAll?
    decreases |chunks|
  {
    if chunks == [] || ctx.state.GotAll? then (ctx, unread + Concat(chunks))
    else
      var o := Parse(ctx, unread + chunks[0], time);
      ParseKeepsState(ctx, unread + chunks[0], time, false);
      Feed(o.ctx, o.unread, chunks[1..], time)
  }

  lemma {:induction false} ParseKeepsState(ctx: Context, bytes: string, time: int, ok: bool)
    requires Parsing(ctx)
    ensures var o := Parse(ctx, bytes, time, ok); Parsing(o.ctx) || o.ctx.state.GotAll?
    decreases |bytes|
  {
    var t := ParseTurn(ctx, bytes, time, ok);
    if t.hasMore {
      ParseKeepsState(t.ctx, t.unread, time, t.ok);
    }
  }

  /**
    Any cutting of the input into chunks, at any places, gives the state, request and unread bytes of one single call.
   */
  lemma {:induction false} ChunkIndependence(ctx: Context, unread: string, chunks: seq<string>, time: int)
    requires Parsing(ctx) && chunks != []
    ensures var o := Parse(ctx, unread + Concat(chunks), time);
            Feed(ctx, unread, chunks, time) == (o.ctx, o.unread)
    decreases |chunks|
  {
    var a, b := unread + chunks[0], Concat(chunks[1..]);
    assert unread + Concat(chunks) == a + b;
    var first := Parse(ctx, a, time);
    ParseKeepsState(ctx, a, time, false);
    if first.ctx.state.GotAll? {
      CompleteStaysComplete(ctx, a, b, time, false);
    } else if |chunks| == 1 {
      assert a + b == a && first.unread + b == first.unread;
    } else {
      TwoChunks(ctx, a, b, time, false);
      ChunkIndependence(first.ctx, first.unread, chunks[1..], time);
    }
  }

  // ----- Request lines -----

  function VersionString(v: Version): string {
    if v.Http11? then "HTTP/1.1" else "HTTP/1.0"
  }

  /** section 3.1.1: method SP request-target SP HTTP-version. */
  function RenderRequestLine(m: Method, path: string, query: string, v: Version): string {
    MethodString(m) + " " + (path + query + " " + VersionString(v))
  }

  /** Parts a request line can carry apart: no blank in the target, and the query starts at its first question mark. */
  predicate ValidTarget(path: string, query: string) {
    ' ' !in path && '?' !in path && ' ' !in query && (query != "" ==> query[0] == '?')
  }

  lemma ReadTarget(path: string, query: string, r: Request)
    requires ValidTarget(path, query) && r.query == ""
    ensures ' ' !in path + query && SetTarget(path + query, r) == r.(path := path, query := query)
  {
    var target := path + query;
    FindUnique(target, '?', |path|);
    assert target[..|path|] == path && target[|path|..] == query;
    if query == "" {
      assert target == path;
    }
  }

  lemma TargetRoundTrip(path: string, query: string, v: Version, r: Request)
    requires v != Unknown && ValidTarget(path, query) && r.query == ""
    ensures TargetAndVersion(path + query + " " + VersionString(v), r) ==
            (r.(version := v, path := path, query := query), true)
  {
    hide SetTarget, ValidTarget;
    var target := path + query;
    var text := target + " " + VersionString(v);
    ReadTarget(path, query, r);
    FindUnique(text, ' ', |target|);
    assert text[..|target|] == target && text[|target| + 1..] == VersionString(v);
    assert "HTTP/1.1"[7] != "HTTP/1.0"[7];
  }

  lemma RequestLineRoundTrip(m: Method, path: string, query: string, v: Version, r: Request)
    requires m != Invalid && v != Unknown && ValidTarget(path, query) && r.query == ""
    ensures RequestLine(RenderRequestLine(m, path, query, v), r) ==
            (r.(method_ := m, version := v, path := path, query := query), true)
  {
    var line := RenderRequestLine(m, path, query, v);
    var token := MethodString(m);
    var text := path + query + " " + VersionString(v);
    assert line == token + " " + text;
    FindUnique(line, ' ', |token|);
    assert line[..|token|] == token && line[|token| + 1..] == text;
    MethodRoundTrip(m);
    TargetRoundTrip(path, query, v, r.(method_ := m));
  }

  lemma TargetParts(target: string, r: Request)
    requires ' ' !in target && r.query == ""
    ensures var q := SetTarget(target, r);
            target == q.path + q.query && ValidTarget(q.path, q.query) && q == r.(path := q.path, query := q.query)
  {
    var question := Find(target, '?');
    assert target == target[..question] + target[question..];
  }

  lemma AcceptedTargetIsRendering(text: string, r: Request)
    requires r.query == "" && TargetAndVersion(text, r).1
    ensures var q := TargetAndVersion(text, r).0;
            && q.version != Unknown && ValidTarget(q.path, q.query)
            && text == q.path + q.query + " " + VersionString(q.version)
            && q == r.(version := q.version, path := q.path, query := q.query)
  {
    hide ValidTarget, SetTarget;
    var end := Find(text, ' ');
    TargetParts(text[..end], r);
    assert text == text[..end] + " " + text[end + 1..];
  }

  /** What a refused line leaves behind: nothing when it has no blank; for an unknown token, the method reset. */
  lemma RefusedMethodTraces(token: string, rest: string, r: Request)
    requires ' ' !in token
    ensures RequestLine(token, r) == (r, false)
    ensures token !in {"GET", "POST", "HEAD", "PUT", "DELETE"} ==>
              RequestLine(token + " " + rest, r) == (r.(method_ := Invalid), false)
  {
    FindUnique(token, ' ', |token|);
    FindUnique(token + " " + rest, ' ', |token|);
    assert (token + " " + rest)[..|token|] == token;
    MethodTokens(token);
  }

  /** For any other version: the method, the path and the query. */
  lemma RefusedVersionTraces(m: Method, path: string, query: string, version: string, r: Request)
    requires m != Invalid && ValidTarget(path, query) && r.query == ""
    requires version != "HTTP/1.1" && version != "HTTP/1.0"
    ensures RequestLine(MethodString(m) + " " + (path + query + " " + version), r) ==
            (r.(method_ := m, path := path, query := query), false)
  {
    hide SetTarget, ValidTarget, TargetAndVersion;
    var token, text := MethodString(m), path + query + " " + version;
    var line := token + " " + text;
    FindUnique(line, ' ', |token|);
    assert line[..|token|] == token && line[|token| + 1..] == text;
    MethodRoundTrip(m);
    ReadTarget(path, query, r.(method_ := m));
    RefusedVersion(path + query, version, r.(method_ := m));
  }

  lemma RefusedVersion(target: string, version: string, r: Request)
    requires ' ' !in target && version != "HTTP/1.1" && version != "HTTP/1.0"
    ensures TargetAndVersion(target + " " + version, r) == (SetTarget(target, r), false)
  {
    hide SetTarget;
    var text := target + " " + version;
    FindUnique(text, ' ', |target|);
    assert text[..|target|] == target && text[|target| + 1..] == version;
  }

  /**
    Conversely an accepted line is exactly the rendering of what was read from it: path ++ query is the request-
    target.
   */
  lemma AcceptedLineIsRendering(line: string, r: Request)
    requires r.query == "" && RequestLine(line, r).1
    ensures var q := RequestLine(line, r).0;
            && q.method_ != Invalid && q.version != Unknown && ValidTarget(q.path, q.query)
            && line == RenderRequestLine(q.method_, q.path, q.query, q.version)
            && q.headers == r.headers && q.receiveTime == r.receiveTime
  {
    hide TargetAndVersion, ValidTarget;
    var q := RequestLine(line, r).0;
    var space := Find(line, ' ');
    var text := line[space + 1..];
    AcceptedTargetIsRendering(text, r.(method_ := MethodOf(line[..space])));
    assert line == line[..space] + " " + text;
  }

  /**
    A cut where the two results differ: right behind the request line, whose acceptance the second call does not
    repeat.
   */
  lemma CutBehindRequestLine(time: int)
    ensures var start, line := Context(ExpectRequestLine, BLANK), "GET / HTTP/1.1\r\n";
            var first, whole := Parse(start, line, time), Parse(start, line + "\r\n", time);
            && Parsing(first.ctx) && first.ok && whole.ok && whole.ctx.state.GotAll?
            && var second := Parse(first.ctx, first.unread + "\r\n", time);
               second.ctx == whole.ctx && !second.ok
  {
    var start, a, b := Context(ExpectRequestLine, BLANK), "GET / HTTP/1.1\r\n", "\r\n";
    FirstLineTurn(time);
    TurnExtend(start, a, b, time, false);
    var t := ParseTurn(start, a, time, false);
    BlankLineEnds(t.ctx, time, true);
    BlankLineEnds(t.ctx, time, false);
    NothingUnread(t.ctx, time, true);
    hide ParseTurn;
  }

  lemma FirstLineTurn(time: int)
    ensures var a := "GET / HTTP/1.1\r\n"; var t := ParseTurn(Context(ExpectRequestLine, BLANK), a, time, false);
            FindCrlf(a).Some? && t.unread == "" && t.ctx.state.ExpectHeaders? && t.ok && t.hasMore
  {
    var a := "GET / HTTP/1.1\r\n";
    GetLine();
    GetLineEnd();
    RequestLineRoundTrip(Get, "/", "", Http11, BLANK);
    hide RequestLine, RenderRequestLine;
    assert a[..14] == "GET / HTTP/1.1";
  }

  lemma GetLine()
    ensures RenderRequestLine(Get, "/", "", Http11) == "GET / HTTP/1.1"
  {
  }

  lemma GetLineEnd()
    ensures FindCrlf("GET / HTTP/1.1\r\n") == Some(14)
  {
    var a := "GET / HTTP/1.1" + "\r\n";
    assert a == "GET / HTTP/1.1\r\n" && '\r' !in a[..14];
    forall j | 0 <= j < 14
      ensures !CrlfAt(a, j)
    {
      assert a[j] == a[..14][j];
    }
    FindCrlfUnique(a, 14);
  }

  lemma BlankLineEnds(ctx: Context, time: int, ok: bool)
    requires ctx.state.ExpectHeaders?
    ensures Parse(ctx, "\r\n", time, ok) == Outcome(ctx.(state := GotAll), "", ok)
  {
    FindCrlfUnique("\r\n", 0);
    assert Find("\r\n"[..0], ':') == 0;
    hide RequestLine, AddHeaderLine;
    assert ParseTurn(ctx, "\r\n", time, ok) == Turn(ctx.(state := GotAll), "", ok, false);
  }

  lemma NothingUnread(ctx: Context, time: int, ok: bool)
    requires Parsing(ctx)
    ensures Parse(ctx, "", time, ok) == Outcome(ctx, "", ok)
  {
  }

  // ----- Headers -----

  /** section 3.2: field-name ":" OWS field-value OWS, with the optional white space of section 3.2.3. */
  datatype Header = Header(name: string, pad: string, value: string, tail: string)

  ghost predicate IsOws(s: string) {
    forall i :: 0 <= i < |s| ==> s[i] == ' ' || s[i] == '\t'
  }

  ghost predicate NoCrlf(s: string) {
    forall j :: !CrlfAt(s, j)
  }

  ghost predicate ValidHeader(h: Header) {
    ':' !in h.name && NoCrlf(h.name) && NoCrlf(h.value) && Trimmed(h.value) && IsOws(h.pad) && IsOws(h.tail)
  }

  function RenderHeader(h: Header): string {
    h.name + ":" + h.pad + h.value + h.tail
  }

  function RenderHeaders(hs: seq<Header>): string {
    if hs == [] then "" else RenderHeader(hs[0]) + "\r\n" + RenderHeaders(hs[1..])
  }

  /** Later fields of the same name replace earlier ones. */
  function HeaderMap(hs: seq<Header>, start: map<string, string>): map<string, string> {
    if hs == [] then start else HeaderMap(hs[1..], start[hs[0].name := hs[0].value])
  }

  lemma NoCrlfAcross(a: string, b: string)
    requires NoCrlf(a) && NoCrlf(b)
    requires a == [] || b == [] || a[|a| - 1] != '\r' || b[0] != '\n'
    ensures NoCrlf(a + b)
  {
    forall j
      ensures !CrlfAt(a + b, j)
    {
      assert CrlfAt(a + b, j) ==> CrlfAt(a, j) || CrlfAt(b, j - |a|) || j == |a| - 1;
    }
  }

  lemma HeaderLineNoCrlf(h: Header)
    requires ValidHeader(h)
    ensures NoCrlf(RenderHeader(h))
  {
    NoCrlfAcross(h.name, ":");
    NoCrlfAcross(h.name + ":", h.pad);
    NoCrlfAcross(h.name + ":" + h.pad, h.value);
    NoCrlfAcross(h.name + ":" + h.pad + h.value, h.tail);
  }

  /** A line without a CRLF in it, ended by one, is the first line. */
  lemma FirstLine(line: string, rest: string)
    requires NoCrlf(line)
    ensures FindCrlf(line + "\r\n" + rest) == Some(|line|)
    ensures (line + "\r\n" + rest)[..|line|] == line && (line + "\r\n" + rest)[|line| + 2..] == rest
  {
    var s := line + "\r\n" + rest;
    assert s[|line|] == '\r' && s[|line| + 1] == '\n';
    forall j | 0 <= j < |line|
      ensures !CrlfAt(s, j)
    {
      assert !CrlfAt(line, j);
    }
    FindCrlfUnique(s, |line|);
  }

  lemma HeaderRoundTrip(h: Header, r: Request)
    requires ValidHeader(h)
    ensures Find(RenderHeader(h), ':') == |h.name| < |RenderHeader(h)|
    ensures AddHeaderLine(RenderHeader(h), r) == r.(headers := r.headers[h.name := h.value])
  {
    var line := RenderHeader(h);
    FindUnique(line, ':', |h.name|);
    assert line[..|h.name|] == h.name && line[|h.name| + 1..] == h.pad + h.value + h.tail;
    TrimPadded(h.pad, h.value, h.tail);
  }

  /** After a header line is added its field reads as the trimmed value, and every other field as before. */
  lemma AddedHeaderIsFound(h: Header, r: Request, field: string)
    requires ValidHeader(h)
    ensures Find(RenderHeader(h), ':') < |RenderHeader(h)|
    ensures HeaderOf(AddHeaderLine(RenderHeader(h), r).headers, field) ==
            if field == h.name then h.value else HeaderOf(r.headers, field)
  {
    HeaderRoundTrip(h, r);
  }

  /**
    Where the headers end: at the first line without a colon, blank or not; a line with one is a header and goes on.
   */
  lemma HeadersEnd(ctx: Context, line: string, rest: string, time: int, ok: bool)
    requires ctx.state.ExpectHeaders? && NoCrlf(line)
    ensures ':' in line <==> Find(line, ':') < |line|
    ensures Parse(ctx, line + "\r\n" + rest, time, ok) ==
            if ':' in line then Parse(ctx.(request := AddHeaderLine(line, ctx.request)), rest, time, ok)
            else Outcome(ctx.(state := GotAll), rest, ok)
  {
    var bytes := line + "\r\n" + rest;
    LineFound(line, rest);
    assert bytes[..|line|] == line && bytes[|line| + 2..] == rest;
  }

  lemma LineFound(line: string, rest: string)
    requires NoCrlf(line)
    ensures FindCrlf(line + "\r\n" + rest) == Some(|line|)
  {
    var bytes := line + "\r\n" + rest;
    forall j | 0 <= j < |line|
      ensures !CrlfAt(bytes, j)
    {
      assert !CrlfAt(line, j);
    }
    FindCrlfUnique(bytes, |line|);
  }

  lemma {:induction false} HeadersRoundTrip(hs: seq<Header>, r: Request, following: string, time: int, ok: bool)
    requires forall i :: 0 <= i < |hs| ==> ValidHeader(hs[i])
    ensures Parse(Context(ExpectHeaders, r), RenderHeaders(hs) + "\r\n" + following, time, ok) ==
            Outcome(Context(GotAll, r.(headers := HeaderMap(hs, r.headers))), following, ok)
    decreases |hs|
  {
    var bytes := RenderHeaders(hs) + "\r\n" + following;
    if hs == [] {
      assert bytes == "" + "\r\n" + following;
      FirstLine("", following);
    } else {
      var line, rest := RenderHeader(hs[0]), RenderHeaders(hs[1..]) + "\r\n" + following;
      assert bytes == line + "\r\n" + rest;
      HeaderLineNoCrlf(hs[0]);
      FirstLine(line, rest);
      HeaderRoundTrip(hs[0], r);
      HeadersRoundTrip(hs[1..], AddHeaderLine(line, r), following, time, ok);
    }
  }

  // ----- Requests -----

  function Render(m: Method, path: string, query: string, v: Version, hs: seq<Header>): string {
    RenderRequestLine(m, path, query, v) + "\r\n" + RenderHeaders(hs) + "\r\n"
  }

  /** A rendered request, whatever bytes follow it, is read back exactly, and the bytes that follow stay unread. */
  lemma RequestRoundTrip(
    m: Method, path: string, query: string, v: Version, hs: seq<Header>, following: string, time: int)
    requires m != Invalid && v != Unknown && ValidTarget(path, query) && NoCrlf(path + query)
    requires forall i :: 0 <= i < |hs| ==> ValidHeader(hs[i])
    ensures Parse(Context(ExpectRequestLine, BLANK), Render(m, path, query, v, hs) + following, time) ==
            Outcome(Context(GotAll, Request(m, v, path, query, time, HeaderMap(hs, map[]))), following, true)
  {
    var line := RenderRequestLine(m, path, query, v);
    var rest := RenderHeaders(hs) + "\r\n" + following;
    assert Render(m, path, query, v, hs) + following == line + "\r\n" + rest;
    NoCrlfAcross(MethodString(m), " ");
    NoCrlfAcross(path + query, " " + VersionString(v));
    assert path + query + " " + VersionString(v) == path + query + (" " + VersionString(v));
    NoCrlfAcross(MethodString(m) + " ", path + query + " " + VersionString(v));
    FirstLine(line, rest);
    RequestLineRoundTrip(m, path, query, v, BLANK);
    HeadersRoundTrip(hs, Request(m, v, path, query, time, map[]), following, time, true);
  }

  /** With distinct names the header map holds exactly the rendered fields. */
  lemma {:induction false} DistinctHeaders(hs: seq<Header>, start: map<string, string>)
    requires forall i, j :: 0 <= i < j < |hs| ==> hs[i].name != hs[j].name
    ensures forall i :: 0 <= i < |hs| ==>
              hs[i].name in HeaderMap(hs, start) && HeaderMap(hs, start)[hs[i].name] == hs[i].value
    ensures forall name :: (forall i :: 0 <= i < |hs| ==> hs[i].name != name) ==>
              && (name in HeaderMap(hs, start) <==> name in start)
              && (name in start ==> HeaderMap(hs, start)[name] == start[name])
    decreases |hs|
  {
    if hs != [] {
      var next := start[hs[0].name := hs[0].value];
      DistinctHeaders(hs[1..], next);
      assert forall i :: 0 <= i < |hs| - 1 ==> hs[1..][i] == hs[i + 1];
      forall i | 0 <= i < |hs|
        ensures hs[i].name in HeaderMap(hs, start) && HeaderMap(hs, start)[hs[i].name] == hs[i].value
      {
        if i > 0 {
          assert hs[1..][i - 1] == hs[i];
        }
      }
    }
  }
}
