/** Standard base64 with padding (section 4 of RFC 4648), over bytes. */
module Base64 {
  import opened Wrappers

  type byte = b: int | 0 <= b < 256
  type Bytes = seq<byte>

  const PAD: byte := 61

  type sextet = v: int | 0 <= v < 64

  function Letter(v: sextet): byte {
    if v < 26 then v + 65
    else if v < 52 then v + 71
    else if v < 62 then v - 4
    else if v == 62 then 43
    else 47
  }

  function ValueOf(c: byte): Option<sextet> {
    if 65 <= c <= 90 then Some(c - 65)
    else if 97 <= c <= 122 then Some(c - 71)
    else if 48 <= c <= 57 then Some(c + 4)
    else if c == 43 then Some(62)
    else if c == 47 then Some(63)
    else None
  }

  lemma LetterInverts(v: sextet)
    ensures Letter(v) != PAD && ValueOf(Letter(v)) == Some(v)
  {
  }

  // Three bytes are four sextets.

  function First(a: byte): sextet { a / 4 }
  function Second(a: byte, b: byte): sextet { a % 4 * 16 + b / 16 }
  function Third(b: byte, c: byte): sextet { b % 16 * 4 + c / 64 }
  function Fourth(c: byte): sextet { c % 64 }

  function Upper(u: sextet, v: sextet): byte { u * 4 + v / 16 }
  function Middle(v: sextet, w: sextet): byte { v % 16 * 16 + w / 4 }
  function Lower(w: sextet, x: sextet): byte { w % 4 * 64 + x }

  lemma UpperInverts(a: byte, b: byte)
    ensures Upper(First(a), Second(a, b)) == a
  {
    assert Second(a, b) / 16 == a % 4;
  }

  lemma MiddleInverts(a: byte, b: byte, c: byte)
    ensures Middle(Second(a, b), Third(b, c)) == b
  {
    assert Second(a, b) % 16 == b / 16 && Third(b, c) / 4 == b % 16;
  }

  lemma LowerInverts(b: byte, c: byte)
    ensures Lower(Third(b, c), Fourth(c)) == c
  {
    assert Third(b, c) % 4 == c / 64;
  }

  function Quad(a: byte, b: byte, c: byte): Bytes {
    [Letter(First(a)), Letter(Second(a, b)), Letter(Third(b, c)), Letter(Fourth(c))]
  }

  function PaddedPair(a: byte): Bytes {
    [Letter(First(a)), Letter(Second(a, 0)), PAD, PAD]
  }

  function PaddedTriple(a: byte, b: byte): Bytes {
    [Letter(First(a)), Letter(Second(a, b)), Letter(Third(b, 0)), PAD]
  }

  function Encode(data: Bytes): (text: Bytes)
    ensures |text| == (|data| + 2) / 3 * 4
  {
    if |data| == 0 then []
    else if |data| == 1 then PaddedPair(data[0])
    else if |data| == 2 then PaddedTriple(data[0], data[1])
    else Quad(data[0], data[1], data[2]) + Encode(data[3..])
  }

  /** What a client's decoder makes of one group of four characters; padding may only be last. */
  function DecodeQuad(q: Bytes, last: bool): Option<Bytes>
    requires |q| == 4
  {
    var u, v, w, x := ValueOf(q[0]), ValueOf(q[1]), ValueOf(q[2]), ValueOf(q[3]);
    if u.None? || v.None? then None
    else if last && q[2] == PAD && q[3] == PAD then Some([Upper(u.value, v.value)])
    else if w.None? then None
    else if last && q[3] == PAD then Some([Upper(u.value, v.value), Middle(v.value, w.value)])
    else if x.None? then None
    else Some([Upper(u.value, v.value), Middle(v.value, w.value), Lower(w.value, x.value)])
  }

  function Decode(text: Bytes): Option<Bytes>
    decreases |text|
  {
    if text == [] then Some([])
    else if |text| < 4 then None
    else
      var head := DecodeQuad(text[..4], |text| == 4);
      var tail := Decode(text[4..]);
      if head.None? || tail.None? then None else Some(head.value + tail.value)
  }

  lemma DecodeFullQuad(a: byte, b: byte, c: byte, last: bool)
    ensures DecodeQuad(Quad(a, b, c), last) == Some([a, b, c])
  {
    LetterInverts(First(a));
    LetterInverts(Second(a, b));
    LetterInverts(Third(b, c));
    LetterInverts(Fourth(c));
    UpperInverts(a, b);
    MiddleInverts(a, b, c);
    LowerInverts(b, c);
  }

  lemma DecodePaddedPair(a: byte)
    ensures DecodeQuad(PaddedPair(a), true) == Some([a])
  {
    LetterInverts(First(a));
    LetterInverts(Second(a, 0));
    UpperInverts(a, 0);
  }

  lemma DecodePaddedTriple(a: byte, b: byte)
    ensures DecodeQuad(PaddedTriple(a, b), true) == Some([a, b])
  {
    LetterInverts(First(a));
    LetterInverts(Second(a, b));
    LetterInverts(Third(b, 0));
    UpperInverts(a, b);
    MiddleInverts(a, b, 0);
  }

  lemma DecodeLastQuad(q: Bytes, data: Bytes)
    requires |q| == 4 && DecodeQuad(q, true) == Some(data)
    ensures Decode(q) == Some(data)
  {
    assert q[..4] == q && q[4..] == [];
    assert Decode([]) == Some([]);
    assert data + [] == data;
  }

  lemma {:induction false} DecodeEncode(data: Bytes)
    ensures Decode(Encode(data)) == Some(data)
    decreases |data|
  {
    var text := Encode(data);
    if |data| == 1 {
      DecodePaddedPair(data[0]);
      DecodeLastQuad(text, [data[0]]);
      assert [data[0]] == data;
    } else if |data| == 2 {
      DecodePaddedTriple(data[0], data[1]);
      DecodeLastQuad(text, [data[0], data[1]]);
      assert [data[0], data[1]] == data;
    } else if |data| > 2 {
      DecodeFullQuad(data[0], data[1], data[2], |text| == 4);
      assert text[..4] == Quad(data[0], data[1], data[2]);
      assert text[4..] == Encode(data[3..]);
      DecodeEncode(data[3..]);
      assert [data[0], data[1], data[2]] + data[3..] == data;
    }
  }

  lemma EncodedLength(data: Bytes)
    ensures |Encode(data)| % 4 == 0 && |Encode(data)| != 2
  {
  }

  /** Encoding lengthens every text but the empty one, so no other text is its own encoding. */
  lemma FixedPointIsEmpty(data: Bytes)
    ensures Encode(data) == data <==> data == []
  {
    assert |data| > 0 ==> |Encode(data)| > |data|;
  }

  // --- the examples of section 10 of RFC 4648: "f", "fo", "foo", "foob" and "foobar" ---

  lemma ShortExamples()
    ensures Encode([]) == []
    ensures Encode([102]) == [90, 103, 61, 61]
    ensures Encode([102, 111]) == [90, 109, 56, 61]
    ensures Encode([102, 111, 111]) == [90, 109, 57, 118]
  {
    assert [102, 111, 111][3..] == [];
  }

  lemma LongExamples()
    ensures Encode([102, 111, 111, 98]) == [90, 109, 57, 118, 89, 103, 61, 61]
    ensures Encode([102, 111, 111, 98, 97, 114]) == [90, 109, 57, 118, 89, 109, 70, 121]
  {
    assert [102, 111, 111, 98][3..] == [98];
    assert [102, 111, 111, 98, 97, 114][3..] == [98, 97, 114] && [98, 97, 114][3..] == [];
  }

  /** The two letters of the standard alphabet that are neither letters nor digits: + and /. */
  lemma LastLetters()
    ensures Encode([251, 239, 190]) == [43, 43, 43, 43]
    ensures Encode([255, 255, 255]) == [47, 47, 47, 47]
  {
    assert [251, 239, 190][3..] == [] && [255, 255, 255][3..] == [];
  }
}
