/** The fixed-size buffer of include/LogStream.h and the integer printer of src/log/LogStream.cc. */
module LogStreams {
  import opened Bytes
  import opened Decimals

  const SMALL_BUFFER: nat := 4000
  const LARGE_BUFFER: nat := 4000 * 1000
  const MAX_NUMERIC_SIZE: nat := 48

  /** What a buffer holds: its storage, how much of it is used, and what each append or add contributed, whole. */
  datatype BufferValue = BufferValue(data: string, cur: nat, pieces: seq<string>) {

    /** The pieces, one after the other, are the used prefix. */
    ghost predicate Valid() {
      cur <= |data| && data[..cur] == Flatten(pieces)
    }

    function Avail(): int {
      |data| - cur
    }

    /** All of the text, or none of it when the room left is not more than its length. */
    function Append(s: string): (b: BufferValue)
      requires Valid()
      ensures b.Valid() && |b.data| == |data|
      ensures b.pieces == pieces + if |s| < Avail() then [s] else []
    {
      if |s| < Avail() then
        assert (pieces + [s])[..|pieces|] == pieces;
        assert (data[..cur] + s + data[cur + |s|..])[..cur + |s|] == data[..cur] + s;
        BufferValue(data[..cur] + s + data[cur + |s|..], cur + |s|, pieces + [s])
      else
        assert pieces + [] == pieces;
        this
    }

    function Reset(): (b: BufferValue)
      ensures b.Valid() && b.pieces == [] && b.data == data
    {
      BufferValue(data, 0, [])
    }
  }

  /** A zeroed buffer of the given size. */
  function NewBuffer(size: nat): (b: BufferValue)
    ensures b.Valid() && b.pieces == [] && |b.data| == size
  {
    BufferValue(seq(size, _ => '\0'), 0, [])
  }

  class FixedBuffer {
    const data: array<char>
    var cur: nat
    ghost var pieces: seq<string>

    ghost function AsValue(): BufferValue
      reads this, data
    {
      BufferValue(data[..], cur, pieces)
    }

    ghost predicate Valid()
      reads this, data
    {
      AsValue().Valid()
    }

    constructor (size: nat)
      ensures Valid() && AsValue() == NewBuffer(size) && fresh(data)
    {
      data := new char[size](_ => '\0');
      cur, pieces := 0, [];
    }

    /** The original's length() is the capacity, not the number of used bytes. */
    function Length(): nat
    {
      data.Length
    }

    function Avail(): int
      reads this
    {
      data.Length - cur
    }

    method Append(s: string)
      requires Valid()
      modifies this, data
      ensures Valid() && AsValue() == old(AsValue()).Append(s)
    {
      if |s| < Avail() {
        ghost var was := AsValue();
        hide Flatten;
        CopyInto(data, cur, s);
        assert was.data[..cur] == old(data[..cur]) && was.data[cur + |s|..] == old(data[cur + |s|..]);
        assert data[..] == was.Append(s).data;
        cur, pieces := cur + |s|, pieces + [s];
        assert AsValue() == was.Append(s);
      }
    }

    /** Declares the next `len` characters, already written behind the used prefix, to be used. */
    method Add(len: nat, ghost text: string)
      requires Valid() && cur + len <= data.Length && data[cur..cur + len] == text
      modifies this
      ensures Valid() && cur == old(cur) + len && pieces == old(pieces) + [text]
    {
      assert data[..cur + len] == data[..cur] + text;
      assert data[..][..cur] == data[..cur] && data[..][..cur + len] == data[..cur + len];
      assert (pieces + [text])[..|pieces|] == pieces;
      cur, pieces := cur + len, pieces + [text];
    }

    method Reset()
      modifies this
      ensures Valid() && AsValue() == old(AsValue()).Reset()
    {
      cur, pieces := 0, [];
    }
  }

  /** C++ division truncates toward zero; the remainder takes the sign of the dividend. */
  function TruncDiv(n: int, d: int): int
    requires 0 < d
  {
    if 0 <= n then n / d else -((-n) / d)
  }

  function TruncMod(n: int, d: int): int
    requires 0 < d
  {
    n - d * TruncDiv(n, d)
  }

  function Abs(n: int): nat {
    if n < 0 then -n else n
  }

  /** The table is indexed from its middle, so that negative remainders find their digit too. */
  const DIGIT_TABLE := "9876543210123456789"

  lemma TableDigit(n: int)
    ensures -10 < TruncMod(n, 10) < 10
    ensures DIGIT_TABLE[9 + TruncMod(n, 10)] == Digit(Abs(n) % 10)
    ensures Abs(TruncDiv(n, 10)) == Abs(n) / 10
  {
  }

  function Reverse(s: string): (r: string)
    ensures |r| == |s|
  {
    if s == "" then "" else [s[|s| - 1]] + Reverse(s[..|s| - 1])
  }

  lemma {:induction false} ReverseAt(s: string, k: nat)
    requires k < |s|
    ensures Reverse(s)[k] == s[|s| - 1 - k]
  {
    if 0 < k {
      ReverseAt(s[..|s| - 1], k - 1);
    }
  }

  lemma ReverseTwice(s: string)
    ensures Reverse(Reverse(s)) == s
  {
    var r := Reverse(s);
    forall k | 0 <= k < |s|
      ensures Reverse(r)[k] == s[k]
    {
      ReverseAt(r, k);
      ReverseAt(s, |s| - 1 - k);
    }
  }

  lemma ReversePush(s: string, c: char)
    ensures Reverse(s + [c]) == [c] + Reverse(s)
  {
  }

  /** std::reverse on `a[lo..hi]`. */
  method ReverseRange(a: array<char>, lo: nat, hi: nat)
    requires lo <= hi <= a.Length
    modifies a
    ensures a[lo..hi] == Reverse(old(a[lo..hi]))
    ensures a[..lo] == old(a[..lo]) && a[hi..] == old(a[hi..])
  {
    var i, j := lo, hi;
    while i + 1 < j
      invariant lo <= i <= hi && i + j == lo + hi
      invariant i <= j + 1
      invariant a[..lo] == old(a[..lo]) && a[hi..] == old(a[hi..])
      invariant forall k :: lo <= k < i ==> a[k] == old(a[lo + hi - 1 - k]) && a[lo + hi - 1 - k] == old(a[k])
      invariant forall k :: i <= k < j ==> a[k] == old(a[k])
      decreases j - i
    {
      j := j - 1;
      a[i], a[j] := a[j], a[i];
      i := i + 1;
    }
    ghost var was := old(a[lo..hi]);
    forall k | 0 <= k < hi - lo
      ensures a[lo + k] == Reverse(was)[k]
    {
      ReverseAt(was, k);
    }
    assert a[lo..hi] == Reverse(was);
  }

  class LogStream {
    const buffer: FixedBuffer

    constructor ()
      ensures fresh(buffer) && fresh(buffer.data) && buffer.Valid() && buffer.AsValue() == NewBuffer(4000)
    {
      buffer := new FixedBuffer(SMALL_BUFFER);
    }

    /**
      Prints any value of a 64-bit type in place behind the used prefix: digits from the lowest up, the sign,
      a terminator, and a reversal. Nothing is printed when fewer than 48 bytes are left.
     */
    method FormatInteger(num: int)
      requires buffer.Valid()
      requires -0x8000_0000_0000_0000 <= num < 0x1_0000_0000_0000_0000
      modifies buffer, buffer.data
      ensures buffer.Valid()
      ensures buffer.pieces == old(buffer.pieces) + if 48 <= old(buffer.Avail()) then [Text(num)] else []
    {
      if MAX_NUMERIC_SIZE <= buffer.Avail() {
        TextOf64Bits(num);
        var len := PrintAt(buffer.data, buffer.cur, num);
        assert buffer.data[..][..buffer.cur] == buffer.data[..buffer.cur];
        buffer.Add(len, Text(num));
      } else {
        assert buffer.pieces + [] == buffer.pieces;
      }
    }
  }

  method PrintAt(a: array<char>, start: nat, num: int) returns (len: nat)
    requires start + |Text(num)| < a.Length
    modifies a
    ensures len == |Text(num)| && a[start..start + len] == Text(num) && a[..start] == old(a[..start])
  {
    len := WriteDigits(a, start, num);
    ReverseTwice(Text(num));
    ReverseRange(a, start, start + len);
  }

  method PutChar(a: array<char>, ghost start: nat, at: nat, c: char)
    requires start <= at < a.Length
    modifies a
    ensures a[start..at + 1] == old(a[start..at]) + [c]
    ensures a[..start] == old(a[..start])
  {
    a[at] := c;
  }

  /** The do-while loop of the printer: it leaves the text backwards at `start`, with its terminator. */
  method WriteDigits(a: array<char>, start: nat, num: int) returns (len: nat)
    requires start + |Text(num)| < a.Length
    modifies a
    ensures len == |Text(num)| && a[start..start + len] == Reverse(Text(num)) && a[start + len] == '\0'
    ensures a[..start] == old(a[..start])
  {
    hide Reverse, Digits, Digit;
    var cur, rest := start, num;
    ghost var done := "";
    var first := true;
    while first || rest != 0
      invariant cur == start + |done| <= start + |Backwards(num)|
      invariant a[start..cur] == done && a[..start] == old(a[..start])
      invariant first ==> rest == num
      invariant done + (if first || rest != 0 then Backwards(rest) else "") == Backwards(num)
      decreases first, Abs(rest)
    {
      NextDigit(rest);
      var c := DIGIT_TABLE[9 + TruncMod(rest, 10)];
      PutChar(a, start, cur, c);
      ghost var ahead := if TruncDiv(rest, 10) != 0 then Backwards(TruncDiv(rest, 10)) else "";
      Associate(done, [c], ahead);
      done := done + [c];
      cur := cur + 1;
      rest := TruncDiv(rest, 10);
      first := false;
    }
    if num < 0 {
      PutChar(a, start, cur, '-');
      cur := cur + 1;
      ReverseSign(Digits(-num));
    }
    a[cur] := '\0';
    len := cur - start;
  }

  /** The digits of a number of either sign, lowest first. */
  function Backwards(n: int): string {
    Reverse(Digits(Abs(n)))
  }

  lemma NextDigit(n: int)
    ensures -10 < TruncMod(n, 10) < 10
    ensures Abs(TruncDiv(n, 10)) <= Abs(n) && (n != 0 ==> Abs(TruncDiv(n, 10)) < Abs(n))
    ensures Backwards(n) ==
            [DIGIT_TABLE[9 + TruncMod(n, 10)]] + if TruncDiv(n, 10) != 0 then Backwards(TruncDiv(n, 10)) else ""
  {
    TableDigit(n);
    if 10 <= Abs(n) {
      ReversePush(Digits(Abs(n) / 10), Digit(Abs(n) % 10));
    } else {
      ReversePush("", Digit(Abs(n)));
      assert "" + [Digit(Abs(n))] == Digits(Abs(n));
    }
  }

  lemma ReverseSign(s: string)
    ensures Reverse("-" + s) == Reverse(s) + "-"
  {
    forall k | 0 <= k < |s| + 1
      ensures Reverse("-" + s)[k] == (Reverse(s) + "-")[k]
    {
      ReverseAt("-" + s, k);
      if k < |s| {
        ReverseAt(s, k);
      }
    }
  }
}
