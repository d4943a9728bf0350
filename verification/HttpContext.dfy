/**
  The incremental request parser of src/http/HttpContext.cc. `Parse` is its meaning on plain bytes;
  the class runs the original loop over a `Buffer` and is proved to compute it.
 */
module HttpContexts {
  import opened Bytes
  import opened Buffers
  import opened HttpRequests

  datatype ParseState = ExpectRequestLine | ExpectHeaders | ExpectBody | GotAll

  datatype Context = Context(state: ParseState, request: Request)

  datatype Outcome = Outcome(ctx: Context, unread: string, ok: bool)

  /** What one request line does to the request, and whether it is accepted; a refused line may leave traces. */
  function RequestLine(line: string, r: Request): (Request, bool) {
    var space := Find(line, ' ');
    var named := r.(method_ := MethodOf(line[..space]));
    if space == |line| then (r, false)
    else if named.method_ == Invalid then (named, false)
    else TargetAndVersion(line[space + 1..], named)
  }

  function TargetAndVersion(text: string, r: Request): (Request, bool) {
    var space := Find(text, ' ');
    if space == |text| then (r, false)
    else
      var aimed := SetTarget(text[..space], r);
      var version := text[space + 1..];
      if version == "HTTP/1.1" then (aimed.(version := Http11), true)
      else if version == "HTTP/1.0" then (aimed.(version := Http10), true)
      else (aimed, false)
  }

  /** The query, if there is one, starts at the first question mark, which it includes. */
  function SetTarget(target: string, r: Request): Request {
    var question := Find(target, '?');
    if question < |target| then r.(path := target[..question], query := target[question..]) else r.(path := target)
  }

  function AddHeaderLine(line: string, r: Request): Request
    requires Find(line, ':') < |line|
  {
    var colon := Find(line, ':');
    r.(headers := r.headers[line[..colon] := Trim(line[colon + 1..])])
  }

  predicate Parsing(ctx: Context) {
    ctx.state.ExpectRequestLine? || ctx.state.ExpectHeaders?
  }

  /** Where one turn of the parse loop leads: the context, the unread bytes, the result so far, and whether to go on. */
  datatype Turn = Turn(ctx: Context, unread: string, ok: bool, hasMore: bool)

  function ParseTurn(ctx: Context, bytes: string, time: int, ok: bool): (t: Turn)
    requires Parsing(ctx)
    ensures t.hasMore ==> Parsing(t.ctx) && |t.unread| < |bytes|
  {
    match FindCrlf(bytes)
    case None => Turn(ctx, bytes, ok, false)
    case Some(k) =>
      var line, rest := bytes[..k], bytes[k + 2..];
      if ctx.state.ExpectRequestLine? then
        var (request, good) := RequestLine(line, ctx.request);
        if good then Turn(Context(ExpectHeaders, request.(receiveTime := time)), rest, true, true)
        else Turn(ctx.(request := request), bytes, false, false)
      else if Find(line, ':') < |line| then
        Turn(ctx.(request := AddHeaderLine(line, ctx.request)), rest, ok, true)
      else Turn(ctx.(state := GotAll), rest, ok, false)
  }

  /** One call of parseRequest on the unread bytes; `ok` is the result so far. */
  function Parse(ctx: Context, bytes: string, time: int, ok: bool := false): Outcome
    requires Parsing(ctx)
    decreases |bytes|
  {
    var t := ParseTurn(ctx, bytes, time, ok);
    if t.hasMore then Parse(t.ctx, t.unread, time, t.ok) else Outcome(t.ctx, t.unread, t.ok)
  }

  class HttpContext {
    var state: ParseState
    const request: HttpRequest

    constructor ()
      ensures fresh(request) && AsValue() == Context(ExpectRequestLine, BLANK)
    {
      state := ExpectRequestLine;
      request := new HttpRequest();
    }

    function AsValue(): Context
      reads this, request
    {
      Context(state, request.AsValue())
    }

    method ProcessRequestLine(line: string) returns (succeed: bool)
      modifies request
      ensures (request.AsValue(), succeed) == RequestLine(line, old(request.AsValue()))
    {
      hide TargetAndVersion;
      succeed := false;
      var space := Find(line, ' ');
      if space != |line| {
        var known := request.SetMethod(line[..space]);
        if known {
          succeed := ProcessTarget(line[space + 1..]);
        }
      }
    }

    /** The rest of the line, behind the method: the request-target and the version. */
    method ProcessTarget(text: string) returns (succeed: bool)
      modifies request
      ensures (request.AsValue(), succeed) == TargetAndVersion(text, old(request.AsValue()))
    {
      succeed := false;
      var space := Find(text, ' ');
      if space != |text| {
        var question := Find(text[..space], '?');
        if question != space {
          request.path := text[..question];
          request.query := text[question..space];
          assert request.path == text[..space][..question] && request.query == text[..space][question..];
        } else {
          request.path := text[..space];
        }
        var version := text[space + 1..];
        succeed := |version| == 8 && version[..7] == "HTTP/1.";
        if succeed {
          assert version == version[..7] + [version[7]];
          if version[7] == '1' {
            request.version := Http11;
          } else if version[7] == '0' {
            request.version := Http10;
          } else {
            succeed := false;
          }
        }
      }
    }

    /** Entered only while a request is being read: in the other two states the original never returns. */
    method ParseRequest(buf: Buffer, time: int) returns (ok: bool)
      requires buf.Valid() && Parsing(AsValue())
      modifies this, request, buf`readIndex, buf`writeIndex
      ensures buf.Valid()
      ensures Outcome(AsValue(), buf.Contents(), ok) == Parse(old(AsValue()), old(buf.Contents()), time)
    {
      ok := false;
      var hasMore := true;
      while hasMore
        invariant buf.Valid() && (hasMore ==> Parsing(AsValue()))
        invariant Parse(old(AsValue()), old(buf.Contents()), time) ==
                  if hasMore then Parse(AsValue(), buf.Contents(), time, ok) else Outcome(AsValue(), buf.Contents(), ok)
        decreases hasMore, |buf.Contents()|
      {
        ok, hasMore := ParseLine(buf, time, ok);
      }
    }

    /** The body of the loop: it handles one line, if there is one. */
    method ParseLine(buf: Buffer, time: int, okSoFar: bool) returns (ok: bool, hasMore: bool)
      requires buf.Valid() && Parsing(AsValue())
      modifies this, request, buf`readIndex, buf`writeIndex
      ensures buf.Valid()
      ensures Turn(AsValue(), buf.Contents(), ok, hasMore) ==
              ParseTurn(old(AsValue()), old(buf.Contents()), time, okSoFar)
    {
      hide RequestLine, AddHeaderLine, FindCrlf, Find;
      ok := okSoFar;
      var crlf := buf.FindCRLF();
      if crlf.None? {
        return ok, false;
      }
      var line := buf.Peek(crlf.value);
      if state.ExpectRequestLine? {
        ok := ProcessRequestLine(line);
        hasMore := ok;
        if ok {
          request.receiveTime := time;
          buf.Retrieve(crlf.value + 2);
          state := ExpectHeaders;
        }
      } else {
        hasMore := ParseHeader(line);
        buf.Retrieve(crlf.value + 2);
      }
    }

    /** A line without a colon ends the headers. */
    method ParseHeader(line: string) returns (isHeader: bool)
      modifies this, request
      ensures isHeader <==> Find(line, ':') < |line|
      ensures AsValue() == if isHeader then old(AsValue()).(request := AddHeaderLine(line, old(AsValue()).request))
                           else old(AsValue()).(state := GotAll)
    {
      var colon := Find(line, ':');
      isHeader := colon != |line|;
      if isHeader {
        request.AddHeader(line, colon);
      } else {
        state := GotAll;
      }
    }

    method Reset()
      modifies this, request
      ensures AsValue() == Context(ExpectRequestLine, BLANK)
    {
      state := ExpectRequestLine;
      request.method_, request.version, request.path := Invalid, Unknown, "";
      request.query, request.receiveTime, request.headers := "", 0, map[];
    }
  }
}
