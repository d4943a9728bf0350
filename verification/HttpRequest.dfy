/** The request object of include/HttpRequest.h: a value describing it, and the class whose methods fill it in. */
module HttpRequests {
  datatype Method = Invalid | Get | Post | Head | Put | Delete

  datatype Version = Unknown | Http10 | Http11

  datatype Request = Request(
    method_: Method, version: Version, path: string, query: string, receiveTime: int, headers: map<string, string>)

  const BLANK := Request(Invalid, Unknown, "", "", 0, map[])

  function MethodOf(token: string): (m: Method)
    ensures m != Invalid ==> MethodString(m) == token
  {
    if token == "GET" then Get
    else if token == "POST" then Post
    else if token == "HEAD" then Head
    else if token == "PUT" then Put
    else if token == "DELETE" then Delete
    else Invalid
  }

  function MethodString(m: Method): (s: string)
    ensures ' ' !in s && '\r' !in s
  {
    match m
    case Get => "GET"
    case Post => "POST"
    case Head => "HEAD"
    case Put => "PUT"
    case Delete => "DELETE"
    case Invalid => "UNKNOWN"
  }

  lemma MethodRoundTrip(m: Method)
    ensures m != Invalid ==> MethodOf(MethodString(m)) == m
    ensures MethodOf(MethodString(Invalid)) == Invalid
  {
  }

  /** The five tokens, letter by letter; any other text names no method. */
  lemma MethodTokens(token: string)
    ensures MethodOf(token) == Get <==> token == "GET"
    ensures MethodOf(token) == Post <==> token == "POST"
    ensures MethodOf(token) == Head <==> token == "HEAD"
    ensures MethodOf(token) == Put <==> token == "PUT"
    ensures MethodOf(token) == Delete <==> token == "DELETE"
    ensures MethodOf(token) == Invalid <==> token !in {"GET", "POST", "HEAD", "PUT", "DELETE"}
  {
  }

  /** isspace in the C locale. */
  predicate IsSpace(c: char) {
    c == ' ' || c == '\t' || c == '\n' || c == '\U{0B}' || c == '\U{0C}' || c == '\r'
  }

  function TrimLeft(s: string): string {
    if s != [] && IsSpace(s[0]) then TrimLeft(s[1..]) else s
  }

  function TrimRight(s: string): string {
    if s != [] && IsSpace(s[|s| - 1]) then TrimRight(s[..|s| - 1]) else s
  }

  function Trim(s: string): string {
    TrimRight(TrimLeft(s))
  }

  predicate Trimmed(s: string) {
    s != [] ==> !IsSpace(s[0]) && !IsSpace(s[|s| - 1])
  }

  predicate AllSpace(s: string) {
    forall i :: 0 <= i < |s| ==> IsSpace(s[i])
  }

  lemma {:induction false} TrimLeftPad(pad: string, s: string)
    requires AllSpace(pad) && (s != [] ==> !IsSpace(s[0]))
    ensures TrimLeft(pad + s) == s
  {
    if pad == [] {
      assert pad + s == s;
    } else {
      assert (pad + s)[1..] == pad[1..] + s;
      TrimLeftPad(pad[1..], s);
    }
  }

  lemma {:induction false} TrimRightPad(s: string, pad: string)
    requires AllSpace(pad) && (s != [] ==> !IsSpace(s[|s| - 1]))
    ensures TrimRight(s + pad) == s
  {
    if pad == [] {
      assert s + pad == s;
    } else {
      assert (s + pad)[..|s + pad| - 1] == s + pad[..|pad| - 1];
      TrimRightPad(s, pad[..|pad| - 1]);
    }
  }

  lemma {:induction false} TrimLeftAllSpace(s: string)
    requires AllSpace(s)
    ensures TrimLeft(s) == []
  {
    if s != [] {
      TrimLeftAllSpace(s[1..]);
    }
  }

  /** Optional white space around a trimmed value disappears. */
  lemma TrimPadded(pad: string, value: string, tail: string)
    requires AllSpace(pad) && AllSpace(tail) && Trimmed(value)
    ensures Trim(pad + value + tail) == value
  {
    if value == [] {
      assert pad + value + tail == pad + tail;
      TrimLeftAllSpace(pad + tail);
    } else {
      assert pad + value + tail == pad + (value + tail);
      TrimLeftPad(pad, value + tail);
      TrimRightPad(value, tail);
    }
  }

  predicate IsBlank(c: char) {
    c in " \t\n\r\U{0B}\U{0C}"
  }

  /**
    What goes at the ends of a value is blanks, tabs, line feeds, carriage returns and both other feeds, and only
    those.
   */
  lemma TrimExactly(pad: string, value: string, tail: string)
    requires forall i :: 0 <= i < |pad| ==> IsBlank(pad[i])
    requires forall i :: 0 <= i < |tail| ==> IsBlank(tail[i])
    requires value != "" ==> !IsBlank(value[0]) && !IsBlank(value[|value| - 1])
    ensures Trim(pad + value + tail) == value
  {
    TrimPadded(pad, value, tail);
  }

  /** The value is trimmed and differs from the raw text only by white space at its ends. */
  lemma {:induction false} TrimIsTrimmed(s: string) returns (pad: string, tail: string)
    ensures Trimmed(Trim(s)) && AllSpace(pad) && AllSpace(tail) && s == pad + Trim(s) + tail
  {
    if s != [] && IsSpace(s[0]) {
      pad, tail := TrimIsTrimmed(s[1..]);
      pad := [s[0]] + pad;
    } else {
      pad := [];
      tail := TrimRightIsTrimmed(s);
    }
  }

  lemma {:induction false} TrimRightIsTrimmed(s: string) returns (tail: string)
    requires s != [] ==> !IsSpace(s[0])
    ensures Trimmed(TrimRight(s)) && AllSpace(tail) && s == TrimRight(s) + tail
  {
    if s != [] && IsSpace(s[|s| - 1]) {
      tail := TrimRightIsTrimmed(s[..|s| - 1]);
      tail := tail + [s[|s| - 1]];
    } else {
      tail := [];
    }
  }

  /** What a request answers for a field; an absent one reads as the empty string. */
  function HeaderOf(headers: map<string, string>, field: string): string {
    if field in headers then headers[field] else ""
  }

  class HttpRequest {
    var method_: Method
    var version: Version
    var path: string
    var query: string
    var receiveTime: int
    var headers: map<string, string>

    function AsValue(): Request
      reads this
    {
      Request(method_, version, path, query, receiveTime, headers)
    }

    constructor ()
      ensures AsValue() == BLANK
    {
      method_, version, path, query, receiveTime, headers := Invalid, Unknown, "", "", 0, map[];
    }

    /** An unknown token resets the method and is reported. */
    method SetMethod(token: string) returns (ok: bool)
      modifies this
      ensures AsValue() == old(AsValue()).(method_ := MethodOf(token))
      ensures ok <==> MethodOf(token) != Invalid
    {
      method_ := MethodOf(token);
      ok := method_ != Invalid;
    }

    /** Records `line[..colon]` with the rest of the line after the colon, stripped of white space at both ends. */
    method AddHeader(line: string, colon: nat)
      requires colon < |line| && line[colon] == ':'
      modifies this
      ensures AsValue() == old(AsValue()).(headers := old(headers)[line[..colon] := Trim(line[colon + 1..])])
    {
      var field := line[..colon];
      var i := colon + 1;
      while i < |line| && IsSpace(line[i])
        invariant colon < i <= |line|
        invariant TrimLeft(line[i..]) == TrimLeft(line[colon + 1..])
      {
        assert line[i..][1..] == line[i + 1..];
        i := i + 1;
      }
      var value := line[i..];
      assert value == TrimLeft(line[colon + 1..]);
      while value != [] && IsSpace(value[|value| - 1])
        invariant TrimRight(value) == Trim(line[colon + 1..])
        decreases |value|
      {
        value := value[..|value| - 1];
      }
      headers := headers[field := value];
    }

    method GetHeader(field: string) returns (value: string)
      ensures value == HeaderOf(headers, field)
    {
      value := if field in headers then headers[field] else "";
    }
  }
}
