/**
 * The RESP2 answers (Upstash-Response-Format: resp2) and a client's reading of them: what was
 * printed is read back, whatever follows it on the stream.
 */
module Resp2 {
  import opened Wrappers
  import opened Base64
  import opened ReplyTree
  import Decimal

  const CR: byte := 13
  const LF: byte := 10
  const CRLF: Bytes := [CR, LF]

  /** formatResp2 on everything but arrays. */
  function Format(v: Reply): Bytes
    requires !v.List? && !v.Error?
  {
    match v
    case Bulk(b) => [43] + b + CRLF
    case Text(t) =>
      if t == OK then [43] + OK + CRLF
      else [36] + Decimal.Print(|t|) + CRLF + t + CRLF
    case Nil => [36, 45, 49] + CRLF
    case Int(n) => [58] + Decimal.Print(n) + CRLF
  }

  /** The answer to a failed command. */
  function FormatError(message: Bytes): Bytes {
    [45] + message + CRLF
  }

  // --- the client ---

  /** Where the first CR LF of `s` is. */
  function LineEnd(s: Bytes): (r: Option<nat>)
    ensures r.Some? ==> r.value + 2 <= |s|
    decreases |s|
  {
    if |s| < 2 then None
    else if s[0] == CR && s[1] == LF then Some(0)
    else match LineEnd(s[1..])
      case None => None
      case Some(k) => Some(k + 1)
  }

  datatype Read = Read(value: Reply, rest: Bytes)

  function ReadBulk(length: int, rest: Bytes): Option<Read> {
    if length == -1 then Some(Read(Nil, rest))
    else if length < 0 || length + 2 > |rest| then None
    else if rest[length..length + 2] != CRLF then None
    else Some(Read(Text(rest[..length]), rest[length + 2..]))
  }

  function ReadOne(s: Bytes): (r: Option<Read>)
    ensures r.Some? ==> |r.value.rest| < |s|
  {
    if s == [] then None
    else match LineEnd(s[1..])
      case None => None
      case Some(k) =>
        var line, rest := s[1..][..k], s[1..][k + 2..];
        if s[0] == 43 then Some(Read(Text(line), rest))
        else if s[0] == 45 then Some(Read(Error(line), rest))
        else if s[0] == 58 then
          match Decimal.Parse(line)
          case None => None
          case Some(n) => Some(Read(Int(n), rest))
        else if s[0] == 36 then
          match Decimal.Parse(line)
          case None => None
          case Some(n) => ReadBulk(n, rest)
        else None
  }

  function ReadAll(s: Bytes): Option<seq<Reply>>
    decreases |s|
  {
    if s == [] then Some([])
    else match ReadOne(s)
      case None => None
      case Some(Read(v, rest)) =>
        match ReadAll(rest)
        case None => None
        case Some(vs) => Some([v] + vs)
  }

  // --- lines ---

  ghost predicate HasCrlf(s: Bytes) {
    exists k :: 0 <= k < |s| - 1 && s[k] == CR && s[k + 1] == LF
  }

  /** The first CR LF after `line` is its own terminator exactly when it holds none. */
  lemma {:induction false} LineEndExact(line: Bytes, suffix: Bytes)
    ensures var end := LineEnd(line + CRLF + suffix);
      end.Some? && end.value <= |line| && (end == Some(|line|) <==> !HasCrlf(line))
    decreases |line|
  {
    var s := line + CRLF + suffix;
    if line == [] {
      assert s[0] == CR && s[1] == LF;
    } else {
      assert s[1..] == line[1..] + CRLF + suffix;
      LineEndExact(line[1..], suffix);
      if s[0] == CR && s[1] == LF {
        assert |line| > 1;
        assert line[0] == CR && line[0 + 1] == LF;
      } else {
        assert HasCrlf(line) <==> HasCrlf(line[1..]) by {
          if HasCrlf(line) {
            var k :| 0 <= k < |line| - 1 && line[k] == CR && line[k + 1] == LF;
            assert k > 0;
            assert line[1..][k - 1] == CR && line[1..][k - 1 + 1] == LF;
          }
          if HasCrlf(line[1..]) {
            var k :| 0 <= k < |line[1..]| - 1 && line[1..][k] == CR && line[1..][k + 1] == LF;
            assert line[k + 1] == CR && line[k + 1 + 1] == LF;
          }
        }
      }
    }
  }

  lemma NumeralsHaveNoCrlf(n: int)
    ensures !HasCrlf(Decimal.Print(n))
  {
    forall k | 0 <= k < |Decimal.Print(n)| ensures Decimal.Print(n)[k] != CR {
      var digits := if n < 0 then Decimal.PrintNat(-n) else Decimal.PrintNat(n);
      var c := Decimal.Print(n)[k];
      assert c == Decimal.MINUS || c in digits;
    }
  }

  lemma Split(kind: byte, line: Bytes, suffix: Bytes)
    requires !HasCrlf(line)
    ensures var s := [kind] + line + CRLF + suffix;
      LineEnd(s[1..]) == Some(|line|) && s[1..][..|line|] == line && s[1..][|line| + 2..] == suffix
  {
    var s := [kind] + line + CRLF + suffix;
    assert s[1..] == line + CRLF + suffix;
    LineEndExact(line, suffix);
  }

  // --- round trips ---

  lemma ReadFormatInt(n: int, suffix: Bytes)
    ensures ReadOne(Format(Int(n)) + suffix) == Some(Read(Int(n), suffix))
  {
    NumeralsHaveNoCrlf(n);
    Split(58, Decimal.Print(n), suffix);
    Decimal.ParsePrint(n);
    assert Format(Int(n)) + suffix == [58] + Decimal.Print(n) + CRLF + suffix;
  }

  lemma ReadSized(n: int, rest: Bytes)
    ensures ReadOne([36] + Decimal.Print(n) + CRLF + rest) == ReadBulk(n, rest)
  {
    NumeralsHaveNoCrlf(n);
    Split(36, Decimal.Print(n), rest);
    Decimal.ParsePrint(n);
  }

  lemma ReadFormatNil(suffix: Bytes)
    ensures ReadOne(Format(Nil) + suffix) == Some(Read(Nil, suffix))
  {
    assert Decimal.Print(-1) == [45, 49];
    ReadSized(-1, suffix);
    assert Format(Nil) + suffix == [36] + Decimal.Print(-1) + CRLF + suffix;
  }

  lemma ReadBulkFrame(t: Bytes, suffix: Bytes)
    ensures ReadBulk(|t|, t + CRLF + suffix) == Some(Read(Text(t), suffix))
  {
    var rest := t + CRLF + suffix;
    assert rest[|t|..|t| + 2] == CRLF && rest[..|t|] == t && rest[|t| + 2..] == suffix;
  }

  lemma ReadStatus(line: Bytes, suffix: Bytes)
    requires !HasCrlf(line)
    ensures ReadOne([43] + line + CRLF + suffix) == Some(Read(Text(line), suffix))
  {
    Split(43, line, suffix);
  }

  lemma ReadFormatText(t: Bytes, suffix: Bytes)
    ensures ReadOne(Format(Text(t)) + suffix) == Some(Read(Text(t), suffix))
  {
    if t == OK {
      ReadStatus(OK, suffix);
    } else {
      ReadSized(|t|, t + CRLF + suffix);
      ReadBulkFrame(t, suffix);
      assert Format(Text(t)) + suffix == [36] + Decimal.Print(|t|) + CRLF + (t + CRLF + suffix);
    }
  }

  /** The replies whose RESP2 form is not Go's `%v` of a slice. */
  predicate Framed(v: Reply) {
    v.Text? || v.Int? || v.Nil?
  }

  /** Any printed string, integer or nil is read back, and the stream goes on where it ends. */
  lemma ReadFormat(v: Reply, suffix: Bytes)
    requires Framed(v)
    ensures ReadOne(Format(v) + suffix) == Some(Read(v, suffix))
  {
    if v.Text? {
      ReadFormatText(v.text, suffix);
    } else if v.Int? {
      ReadFormatInt(v.n, suffix);
    } else {
      ReadFormatNil(suffix);
    }
  }

  predicate AllFramed(vs: seq<Reply>) {
    forall i :: 0 <= i < |vs| ==> Framed(vs[i])
  }

  function FormatAll(vs: seq<Reply>): Bytes
    requires AllFramed(vs)
    decreases |vs|
  {
    if vs == [] then [] else Format(vs[0]) + FormatAll(vs[1..])
  }

  lemma {:induction false} ReadFormatAll(vs: seq<Reply>)
    requires AllFramed(vs)
    ensures ReadAll(FormatAll(vs)) == Some(vs)
    decreases |vs|
  {
    if vs != [] {
      ReadFormat(vs[0], FormatAll(vs[1..]));
      ReadFormatAll(vs[1..]);
      assert [vs[0]] + vs[1..] == vs;
    }
  }

  /** A stream of printed replies stands for one list of replies only. */
  lemma FormatAllInjective(vs: seq<Reply>, ws: seq<Reply>)
    requires AllFramed(vs) && AllFramed(ws)
    requires FormatAll(vs) == FormatAll(ws)
    ensures vs == ws
  {
    ReadFormatAll(vs);
    ReadFormatAll(ws);
  }

  /** An error is read back exactly when its message has no CR LF in it. */
  lemma ReadErrorIff(message: Bytes, suffix: Bytes)
    ensures ReadOne(FormatError(message) + suffix) == Some(Read(Error(message), suffix)) <==> !HasCrlf(message)
  {
    var s := FormatError(message) + suffix;
    assert s[1..] == message + CRLF + suffix;
    LineEndExact(message, suffix);
    if !HasCrlf(message) {
      Split(45, message, suffix);
      assert s == [45] + message + CRLF + suffix;
    }
  }

  /** So is a byte string, which formatResp2 prints as a status line; no converted result is one. */
  lemma ReadBytesIff(b: Bytes, suffix: Bytes)
    ensures ReadOne(Format(Bulk(b)) + suffix) == Some(Read(Text(b), suffix)) <==> !HasCrlf(b)
  {
    var s := Format(Bulk(b)) + suffix;
    assert s[1..] == b + CRLF + suffix;
    LineEndExact(b, suffix);
    if !HasCrlf(b) {
      Split(43, b, suffix);
      assert s == [43] + b + CRLF + suffix;
    }
  }

  /** The answer to a command that does not return an array, in RESP2. */
  function Body(d: Data<Reply>): Bytes
    requires d.Failure? || (d.Success? && Framed(d.result))
  {
    if d.Failure? then FormatError(d.error) else Format(d.result)
  }

  /** From Redis to the client: strings, integers and nil arrive as themselves. */
  lemma AnswerArrives(r: Reply, suffix: Bytes)
    requires !r.List? && !r.Error?
    ensures var arrived := ReadOne(Body(Answer(r)) + suffix);
      && arrived == Some(Read(Plain(r, false), suffix))
      && Shows(r, arrived.value.value, false)
  {
    PlainShows(r);
    ReadFormat(Plain(r, false), suffix);
  }

  /** A failed command arrives as its message, if that is one line. */
  lemma ErrorArrives(message: Bytes, suffix: Bytes)
    requires !HasCrlf(message)
    ensures ReadOne(Body(Answer(Error(message))) + suffix) == Some(Read(Error(message), suffix))
  {
    ReadErrorIff(message, suffix);
  }

  // --- on the wire: +OK, $3 and abc, $-1, :-12 and -ERR, each line ended by CR LF ---

  lemma Examples()
    ensures Format(Text(OK)) == [43, 79, 75, 13, 10]
    ensures Format(Text([97, 98, 99])) == [36, 51, 13, 10, 97, 98, 99, 13, 10]
    ensures Format(Text([])) == [36, 48, 13, 10, 13, 10]
    ensures Format(Bulk([97])) == [43, 97, 13, 10]
    ensures Format(Nil) == [36, 45, 49, 13, 10]
    ensures Format(Int(-12)) == [58, 45, 49, 50, 13, 10]
    ensures FormatError([69, 82, 82]) == [45, 69, 82, 82, 13, 10]
  {
    Decimal.Examples();
  }
}
