/**
 * The JSON of recorded commands: arrays of strings and other values as Go's encoder prints them
 * (section 7 of RFC 8259 for the strings), and a decoder for them.
 */
module Json {
  import opened Wrappers
  import Base64

  /** A Go string is any bytes: characters, and bytes that are not part of one in UTF-8. */
  datatype Piece = Rune(c: char) | Stray(b: Base64.byte)

  type GoString = seq<Piece>

  function Runes(s: string): GoString {
    seq(|s|, i requires 0 <= i < |s| => Rune(s[i]))
  }

  predicate ValidUtf8(s: GoString) {
    forall i :: 0 <= i < |s| ==> s[i].Rune?
  }

  /** What JSON can say of a piece: U+FFFD stands for a stray byte. */
  function CharOf(p: Piece): char {
    if p.Rune? then p.c else 0xFFFD as char
  }

  function Chars(s: GoString): string {
    seq(|s|, i requires 0 <= i < |s| => CharOf(s[i]))
  }

  function Coerce(s: GoString): GoString {
    Runes(Chars(s))
  }

  /** A command argument: a string, or any other value by the text its encoder prints for it. */
  datatype Arg = Text(s: GoString) | Literal(text: string)

  function CoerceArg(a: Arg): Arg {
    if a.Text? then Text(Coerce(a.s)) else a
  }

  function CoerceArgs(args: seq<Arg>): seq<Arg> {
    seq(|args|, i requires 0 <= i < |args| => CoerceArg(args[i]))
  }

  predicate ValidArg(a: Arg) {
    a.Text? ==> ValidUtf8(a.s)
  }

  predicate ValidArgs(args: seq<Arg>) {
    forall i :: 0 <= i < |args| ==> ValidArg(args[i])
  }

  lemma CoerceFixes(s: GoString)
    ensures Coerce(s) == s <==> ValidUtf8(s)
  {
    if Coerce(s) == s {
      forall i | 0 <= i < |s| ensures s[i].Rune? {
        assert Coerce(s)[i] == Rune(CharOf(s[i]));
      }
    }
  }

  /** Printing in JSON keeps exactly the arguments whose strings are valid UTF-8. */
  lemma CoerceArgsFixes(args: seq<Arg>)
    ensures CoerceArgs(args) == args <==> ValidArgs(args)
  {
    forall i | 0 <= i < |args| ensures CoerceArg(args[i]) == args[i] <==> ValidArg(args[i]) {
      if args[i].Text? {
        CoerceFixes(args[i].s);
      }
    }
    if CoerceArgs(args) == args {
      forall i | 0 <= i < |args| ensures ValidArg(args[i]) {
        assert CoerceArgs(args)[i] == CoerceArg(args[i]);
      }
    }
  }

  predicate OneLine(s: string) {
    forall i :: 0 <= i < |s| ==> s[i] != '\n'
  }

  predicate OnOneLine(args: seq<Arg>) {
    forall i :: 0 <= i < |args| && args[i].Literal? ==> OneLine(args[i].text)
  }

  // --- hexadecimal ---

  function HexDigit(d: nat): char
    requires d < 16
  {
    if d < 10 then (d + 48) as char else (d + 87) as char
  }

  function HexValue(c: char): (r: Option<nat>)
    ensures r.Some? ==> r.value < 16
  {
    if '0' <= c <= '9' then Some(c as int - 48)
    else if 'a' <= c <= 'f' then Some(c as int - 87)
    else if 'A' <= c <= 'F' then Some(c as int - 55)
    else None
  }

  function Hex4(n: nat): string
    requires n < 0x1_0000
  {
    [HexDigit(n / 4096), HexDigit(n / 256 % 16), HexDigit(n / 16 % 16), HexDigit(n % 16)]
  }

  function ReadHex4(s: string): (r: Option<nat>)
    requires |s| == 4
    ensures r.Some? ==> r.value < 0x1_0000
  {
    var a, b, c, d := HexValue(s[0]), HexValue(s[1]), HexValue(s[2]), HexValue(s[3]);
    if a.None? || b.None? || c.None? || d.None? then None
    else Some(a.value * 4096 + b.value * 256 + c.value * 16 + d.value)
  }

  lemma HexDigitRead(d: nat)
    requires d < 16
    ensures HexValue(HexDigit(d)) == Some(d)
  {
  }

  lemma Hex4Digits(n: nat)
    requires n < 0x1_0000
    ensures n / 4096 * 4096 + n / 256 % 16 * 256 + n / 16 % 16 * 16 + n % 16 == n
  {
    assert n / 256 / 16 == n / 4096 && n / 16 / 16 == n / 256;
  }

  lemma ReadHex4Inverts(n: nat)
    requires n < 0x1_0000
    ensures ReadHex4(Hex4(n)) == Some(n)
  {
    HexDigitRead(n / 4096);
    HexDigitRead(n / 256 % 16);
    HexDigitRead(n / 16 % 16);
    HexDigitRead(n % 16);
    Hex4Digits(n);
  }

  // --- strings ---

  const BACKSPACE: char := 8 as char
  const FORM_FEED: char := 12 as char

  /** The characters with an escape of their own, and the letter that follows the backslash. */
  function ShortEscape(c: char): Option<char> {
    if c == '"' then Some('"')
    else if c == '\\' then Some('\\')
    else if c == '\n' then Some('n')
    else if c == '\r' then Some('r')
    else if c == '\t' then Some('t')
    else if c == BACKSPACE then Some('b')
    else if c == FORM_FEED then Some('f')
    else None
  }

  /** Printed as \u and four digits: other control characters, HTML's three, and U+2028, U+2029. */
  predicate LongEscape(c: char) {
    c < ' ' || c == '<' || c == '>' || c == '&' || c as int == 0x2028 || c as int == 0x2029
  }

  function EscapeChar(c: char): string {
    var e := ShortEscape(c);
    if e.Some? then ['\\', e.value]
    else if LongEscape(c) then ['\\', 'u'] + Hex4(c as int)
    else [c]
  }

  function EscapePiece(p: Piece): string {
    if p.Rune? then EscapeChar(p.c) else ['\\', 'u'] + Hex4(0xFFFD)
  }

  function Escape(s: GoString): string {
    if s == [] then "" else EscapePiece(s[0]) + Escape(s[1..])
  }

  function Unescape(letter: char): Option<char> {
    if letter == 'n' then Some('\n')
    else if letter == 'r' then Some('\r')
    else if letter == 't' then Some('\t')
    else if letter == 'b' then Some(BACKSPACE)
    else if letter == 'f' then Some(FORM_FEED)
    else if letter == '"' || letter == '\\' || letter == '/' then Some(letter)
    else None
  }

  datatype Read<T> = Read(value: T, rest: string)

  function Prepend(c: char, r: Option<Read<string>>): Option<Read<string>> {
    if r.None? then None else Some(Read([c] + r.value.value, r.value.rest))
  }

  predicate HighSurrogate(n: nat) {
    0xD800 <= n < 0xDC00
  }

  predicate LowSurrogate(n: nat) {
    0xDC00 <= n < 0xE000
  }

  /** The low half that must follow a high surrogate, if it does. */
  function LowHalf(s: string): (r: Option<nat>)
    ensures r.Some? ==> |s| >= 6 && LowSurrogate(r.value)
  {
    if |s| < 6 || s[0] != '\\' || s[1] != 'u' then None
    else
      var n := ReadHex4(s[2..6]);
      if n.Some? && LowSurrogate(n.value) then n else None
  }

  /** The character of the escape \uXXXX with value `n` and what comes after it. */
  function ReadUnicode(n: nat, after: string): (r: Read<char>)
    requires n < 0x1_0000
    ensures |r.rest| <= |after|
  {
    if HighSurrogate(n) && LowHalf(after).Some? then
      Read(((n - 0xD800) * 0x400 + (LowHalf(after).value - 0xDC00) + 0x1_0000) as char, after[6..])
    else if HighSurrogate(n) || LowSurrogate(n) then Read(0xFFFD as char, after)
    else Read(n as char, after)
  }

  /** The string up to its closing quote. */
  function ReadString(s: string): (r: Option<Read<string>>)
    ensures r.Some? ==> |r.value.rest| < |s|
    decreases |s|
  {
    if s == "" then None
    else if s[0] == '"' then Some(Read("", s[1..]))
    else if s[0] < ' ' then None
    else if s[0] != '\\' then Prepend(s[0], ReadString(s[1..]))
    else if |s| < 2 then None
    else if s[1] == 'u' then
      if |s| < 6 then None
      else
        var n := ReadHex4(s[2..6]);
        if n.None? then None
        else
          var c := ReadUnicode(n.value, s[6..]);
          Prepend(c.value, ReadString(c.rest))
    else
      var c := Unescape(s[1]);
      if c.None? then None else Prepend(c.value, ReadString(s[2..]))
  }

  lemma ShortEscapeInverts(c: char)
    ensures ShortEscape(c).Some? ==>
      ShortEscape(c).value != 'u' && Unescape(ShortEscape(c).value) == Some(c)
  {
  }

  lemma ReadEscapedChar(c: char, tail: string)
    ensures ReadString(EscapeChar(c) + tail) == Prepend(c, ReadString(tail))
  {
    var s := EscapeChar(c) + tail;
    ShortEscapeInverts(c);
    if ShortEscape(c).Some? {
      assert s[2..] == tail;
    } else if LongEscape(c) {
      ReadHex4Inverts(c as int);
      assert s[2..6] == Hex4(c as int) && s[6..] == tail;
    } else {
      assert s[1..] == tail;
    }
  }

  lemma ReadEscapedPiece(p: Piece, tail: string)
    ensures ReadString(EscapePiece(p) + tail) == Prepend(CharOf(p), ReadString(tail))
  {
    if p.Rune? {
      ReadEscapedChar(p.c, tail);
    } else {
      var s := EscapePiece(p) + tail;
      ReadHex4Inverts(0xFFFD);
      assert s[2..6] == Hex4(0xFFFD) && s[6..] == tail;
    }
  }

  lemma {:induction false} ReadEscaped(s: GoString, rest: string)
    ensures ReadString(Escape(s) + "\"" + rest) == Some(Read(Chars(s), rest))
    decreases |s|
  {
    if s == [] {
      assert Escape(s) + "\"" + rest == "\"" + rest;
      assert ("\"" + rest)[1..] == rest && Chars(s) == "";
    } else {
      var tail := Escape(s[1..]) + "\"" + rest;
      assert Escape(s) + "\"" + rest == EscapePiece(s[0]) + tail;
      ReadEscapedPiece(s[0], tail);
      ReadEscaped(s[1..], rest);
      assert [CharOf(s[0])] + Chars(s[1..]) == Chars(s);
    }
  }

  // --- printing arrays ---

  function PrintArg(a: Arg): string {
    match a
    case Text(s) => "\"" + Escape(s) + "\""
    case Literal(t) => t
  }

  /** The elements from here on and the closing bracket. */
  function PrintRest(args: seq<Arg>): string
    decreases |args|
  {
    if args == [] then "]" else "," + PrintArg(args[0]) + PrintRest(args[1..])
  }

  function Print(args: seq<Arg>): string {
    if args == [] then "[]" else "[" + PrintArg(args[0]) + PrintRest(args[1..])
  }

  lemma {:induction false} EscapedIsOneLine(s: GoString)
    ensures OneLine(Escape(s))
  {
    if s != [] {
      EscapedIsOneLine(s[1..]);
      assert OneLine(EscapePiece(s[0]));
    }
  }

  lemma PrintedArgIsOneLine(a: Arg)
    requires a.Literal? ==> OneLine(a.text)
    ensures OneLine(PrintArg(a))
  {
    if a.Text? {
      EscapedIsOneLine(a.s);
    }
  }

  lemma {:induction false} RestIsOneLine(args: seq<Arg>)
    requires OnOneLine(args)
    ensures OneLine(PrintRest(args)) && PrintRest(args) != ""
    ensures PrintRest(args)[|PrintRest(args)| - 1] == ']'
    decreases |args|
  {
    if args != [] {
      RestIsOneLine(args[1..]);
      PrintedArgIsOneLine(args[0]);
    }
  }

  /** A printed array holds no line break and neither starts nor ends with white space. */
  lemma PrintedIsOneLine(args: seq<Arg>)
    requires OnOneLine(args)
    ensures var s := Print(args); OneLine(s) && |s| >= 2 && s[0] == '[' && s[|s| - 1] == ']'
  {
    if args != [] {
      RestIsOneLine(args[1..]);
      PrintedArgIsOneLine(args[0]);
    }
  }

  // --- a decoder ---

  predicate Blank(c: char) {
    c == ' ' || c == '\t' || c == '\n' || c == '\r'
  }

  /** How far a value has been scanned: brackets still open, and whether inside a string or its escapes. */
  datatype Scan = Scan(depth: nat, quoted: bool, escaped: bool)

  const OUTSIDE: Scan := Scan(0, false, false)

  function Next(x: Scan, c: char): Scan {
    if x.escaped then x.(escaped := false)
    else if x.quoted then x.(quoted := c != '"', escaped := c == '\\')
    else if c == '"' then x.(quoted := true)
    else if c == '[' || c == '{' then x.(depth := x.depth + 1)
    else if (c == ']' || c == '}') && x.depth > 0 then x.(depth := x.depth - 1)
    else x
  }

  /** What comes after a value in an array. */
  predicate Stops(x: Scan, c: char) {
    x == OUTSIDE && (c == ',' || c == ']' || c == '}' || Blank(c))
  }

  predicate Scanned(x: Scan, t: string)
    decreases |t|
  {
    if t == "" then x == OUTSIDE else !Stops(x, t[0]) && Scanned(Next(x, t[0]), t[1..])
  }

  /** One value other than a string, on one line: its brackets and its quotes are closed. */
  predicate IsValue(t: string) {
    t != "" && t[0] != '"' && OneLine(t) && Scanned(OUTSIDE, t)
  }

  /**
   * How numbers, booleans, null, arrays and objects are read: the text printed for the value of a
   * text, or None for what is not a value.
   */
  type Values = string -> Option<string>

  /** What is printed for a value is read as that value. */
  ghost predicate Faithful(values: Values) {
    forall t :: values(t).Some? ==> IsValue(values(t).value) && values(values(t).value) == values(t)
  }

  /** Whatever its strings are, its other values are in the form they are printed. */
  predicate Canonical(values: Values, args: seq<Arg>) {
    forall i :: 0 <= i < |args| ==> CanonicalArg(values, args[i])
  }

  predicate CanonicalArg(values: Values, a: Arg) {
    a.Literal? ==> IsValue(a.text) && values(a.text) == Some(a.text)
  }

  function Skip(s: string): (r: string)
    ensures |r| <= |s|
    decreases |s|
  {
    if s != "" && Blank(s[0]) then Skip(s[1..]) else s
  }

  function ReadValue(x: Scan, s: string): (r: Read<string>)
    ensures |r.value| + |r.rest| == |s|
    decreases |s|
  {
    if s == "" || Stops(x, s[0]) then Read("", s)
    else
      var r := ReadValue(Next(x, s[0]), s[1..]);
      Read([s[0]] + r.value, r.rest)
  }

  function ReadArg(values: Values, s: string): (r: Option<Read<Arg>>)
    ensures r.Some? ==> |r.value.rest| < |s|
  {
    if s == "" then None
    else if s[0] == '"' then
      var r := ReadString(s[1..]);
      if r.None? then None else Some(Read(Text(Runes(r.value.value)), r.value.rest))
    else
      var r := ReadValue(OUTSIDE, s);
      var v := values(r.value);
      if r.value == "" || v.None? then None else Some(Read(Literal(v.value), r.rest))
  }

  /** The rest of an array after an element. */
  function ReadRest(values: Values, s: string): (r: Option<Read<seq<Arg>>>)
    ensures r.Some? ==> |r.value.rest| <= |s|
    decreases |s|
  {
    var t := Skip(s);
    if t == "" then None
    else if t[0] == ']' then Some(Read([], t[1..]))
    else if t[0] != ',' then None
    else ReadElements(values, Skip(t[1..]))
  }

  /** An element and the rest of its array. */
  function ReadElements(values: Values, s: string): (r: Option<Read<seq<Arg>>>)
    ensures r.Some? ==> |r.value.rest| <= |s|
    decreases |s|
  {
    var a := ReadArg(values, s);
    if a.None? then None
    else
      var more := ReadRest(values, a.value.rest);
      if more.None? then None else Some(Read([a.value.value] + more.value.value, more.value.rest))
  }

  function ReadArray(values: Values, s: string): (r: Option<Read<seq<Arg>>>)
    ensures r.Some? ==> |r.value.rest| < |s|
  {
    if s == "" || s[0] != '[' then None
    else
      var t := Skip(s[1..]);
      if t != "" && t[0] == ']' then Some(Read([], t[1..])) else ReadElements(values, t)
  }

  function Parse(values: Values, s: string): Option<seq<Arg>> {
    var r := ReadArray(values, Skip(s));
    if r.None? || Skip(r.value.rest) != "" then None else Some(r.value.value)
  }

  /** The rest of an array of arrays after one of them. */
  function ReadMoreArrays(values: Values, s: string): Option<seq<seq<Arg>>>
    decreases |s|
  {
    var t := Skip(s);
    if t == "" then None
    else if t[0] == ']' then if Skip(t[1..]) == "" then Some([]) else None
    else if t[0] != ',' then None
    else ReadArrays(values, Skip(t[1..]))
  }

  function ReadArrays(values: Values, s: string): Option<seq<seq<Arg>>>
    decreases |s|
  {
    var a := ReadArray(values, s);
    if a.None? then None
    else
      var more := ReadMoreArrays(values, a.value.rest);
      if more.None? then None else Some([a.value.value] + more.value)
  }

  function ParseAll(values: Values, s: string): Option<seq<seq<Arg>>> {
    var t := Skip(s);
    if t == "" || t[0] != '[' then None
    else
      var u := Skip(t[1..]);
      if u != "" && u[0] == ']' then if Skip(u[1..]) == "" then Some([]) else None
      else ReadArrays(values, u)
  }

  // --- what is printed is read back ---

  lemma {:induction false} ReadValueStops(x: Scan, t: string, rest: string)
    requires Scanned(x, t) && rest != "" && Stops(OUTSIDE, rest[0])
    ensures ReadValue(x, t + rest) == Read(t, rest)
    decreases |t|
  {
    if t == "" {
      assert t + rest == rest;
    } else {
      assert (t + rest)[1..] == t[1..] + rest;
      ReadValueStops(Next(x, t[0]), t[1..], rest);
      assert [t[0]] + t[1..] == t;
    }
  }

  lemma ReadPrintedText(values: Values, t: GoString, rest: string)
    ensures ReadArg(values, "\"" + Escape(t) + "\"" + rest) == Some(Read(Text(Coerce(t)), rest))
  {
    var s := "\"" + Escape(t) + "\"" + rest;
    assert s[1..] == Escape(t) + "\"" + rest;
    ReadEscaped(t, rest);
  }

  lemma ReadPrintedValue(values: Values, t: string, rest: string)
    requires IsValue(t) && values(t) == Some(t) && rest != "" && Stops(OUTSIDE, rest[0])
    ensures !Stops(OUTSIDE, t[0]) && ReadArg(values, t + rest) == Some(Read(Literal(t), rest))
  {
    ReadValueStops(OUTSIDE, t, rest);
  }

  lemma ReadPrintedArg(values: Values, a: Arg, rest: string)
    requires CanonicalArg(values, a) && rest != "" && Stops(OUTSIDE, rest[0])
    ensures ReadArg(values, PrintArg(a) + rest) == Some(Read(CoerceArg(a), rest))
    ensures PrintArg(a) != "" && PrintArg(a)[0] != ']' && !Blank(PrintArg(a)[0])
  {
    if a.Text? {
      ReadPrintedText(values, a.s, rest);
    } else {
      ReadPrintedValue(values, a.text, rest);
    }
  }

  predicate Unpadded(s: string) {
    s != "" && !Blank(s[0])
  }

  function After(args: seq<Arg>, rest: string): string {
    PrintRest(args) + rest
  }

  lemma RestStarts(args: seq<Arg>, rest: string)
    ensures After(args, rest) != "" && Stops(OUTSIDE, After(args, rest)[0])
  {
  }

  lemma RestCons(args: seq<Arg>, rest: string)
    requires args != []
    ensures After(args, rest) == "," + (PrintArg(args[0]) + After(args[1..], rest))
  {
  }

  lemma ArrayCons(args: seq<Arg>, rest: string)
    requires args != []
    ensures Print(args) + rest == "[" + (PrintArg(args[0]) + After(args[1..], rest))
  {
  }

  lemma ReadPrintedElements(values: Values, a: Arg, args: seq<Arg>, rest: string)
    requires CanonicalArg(values, a)
    requires ReadRest(values, After(args, rest)) == Some(Read(CoerceArgs(args), rest))
    ensures var s := PrintArg(a) + After(args, rest);
      Unpadded(s) && s[0] != ']' && ReadElements(values, s) == Some(Read([CoerceArg(a)] + CoerceArgs(args), rest))
  {
    RestStarts(args, rest);
    ReadPrintedArg(values, a, After(args, rest));
  }

  lemma AfterComma(values: Values, s: string)
    requires Unpadded(s)
    ensures ReadRest(values, "," + s) == ReadElements(values, s)
  {
    assert ("," + s)[1..] == s;
  }

  lemma AfterBracket(values: Values, s: string)
    requires Unpadded(s) && s[0] != ']'
    ensures ReadArray(values, "[" + s) == ReadElements(values, s)
  {
    assert ("[" + s)[1..] == s;
  }

  lemma Closed(values: Values, rest: string)
    ensures ReadRest(values, "]" + rest) == Some(Read([], rest))
    ensures ReadArray(values, "[]" + rest) == Some(Read([], rest))
  {
    assert ("]" + rest)[1..] == rest && ("[]" + rest)[1..] == "]" + rest;
  }

  lemma CoerceCons(args: seq<Arg>)
    requires args != []
    ensures [CoerceArg(args[0])] + CoerceArgs(args[1..]) == CoerceArgs(args)
  {
  }

  lemma {:induction false} ReadPrintedRest(values: Values, args: seq<Arg>, rest: string)
    requires Canonical(values, args)
    ensures ReadRest(values, After(args, rest)) == Some(Read(CoerceArgs(args), rest))
    decreases |args|
  {
    if args == [] {
      assert CoerceArgs(args) == [];
      Closed(values, rest);
    } else {
      ReadPrintedRest(values, args[1..], rest);
      ReadPrintedElements(values, args[0], args[1..], rest);
      AfterComma(values, PrintArg(args[0]) + After(args[1..], rest));
      RestCons(args, rest);
      CoerceCons(args);
    }
  }

  lemma PrintedElements(values: Values, args: seq<Arg>, rest: string) returns (s: string)
    requires Canonical(values, args) && args != []
    ensures Print(args) + rest == "[" + s
    ensures Unpadded(s) && s[0] != ']' && ReadElements(values, s) == Some(Read(CoerceArgs(args), rest))
  {
    s := PrintArg(args[0]) + After(args[1..], rest);
    ReadPrintedRest(values, args[1..], rest);
    ReadPrintedElements(values, args[0], args[1..], rest);
    ArrayCons(args, rest);
    CoerceCons(args);
  }

  lemma ReadPrintedArray(values: Values, args: seq<Arg>, rest: string)
    requires Canonical(values, args)
    ensures ReadArray(values, Print(args) + rest) == Some(Read(CoerceArgs(args), rest))
    ensures Print(args) != "" && !Blank(Print(args)[0])
  {
    if args == [] {
      assert CoerceArgs(args) == [];
      Closed(values, rest);
    } else {
      var s := PrintedElements(values, args, rest);
      AfterBracket(values, s);
    }
  }

  /** A printed array reads back as the same arguments, but for stray bytes, and so exactly if there are none. */
  lemma ParsePrint(values: Values, args: seq<Arg>)
    requires Canonical(values, args)
    ensures Parse(values, Print(args)) == Some(CoerceArgs(args))
    ensures Parse(values, Print(args)) == Some(args) <==> ValidArgs(args)
  {
    CoerceArgsFixes(args);
    ReadPrintedArray(values, args, "");
    assert Print(args) + "" == Print(args);
    SkipUnpadded(Print(args));
  }

  lemma SkipUnpadded(s: string)
    requires s != "" && !Blank(s[0])
    ensures Skip(s) == s
  {
  }

  // --- whatever is read is canonical ---

  predicate Decoded(values: Values, args: seq<Arg>) {
    Canonical(values, args) && ValidArgs(args)
  }

  lemma ReadArgCanonical(values: Values, s: string)
    requires Faithful(values)
    ensures var r := ReadArg(values, s); r.Some? ==> CanonicalArg(values, r.value.value) && ValidArg(r.value.value)
  {
  }

  lemma {:induction false} ReadRestCanonical(values: Values, s: string)
    requires Faithful(values)
    ensures var r := ReadRest(values, s); r.Some? ==> Decoded(values, r.value.value)
    decreases |s|, 1
  {
    var t := Skip(s);
    if t != "" && t[0] == ',' {
      ReadElementsCanonical(values, Skip(t[1..]));
    }
  }

  lemma {:induction false} ReadElementsCanonical(values: Values, s: string)
    requires Faithful(values)
    ensures var r := ReadElements(values, s); r.Some? ==> Decoded(values, r.value.value)
    decreases |s|, 0
  {
    var a := ReadArg(values, s);
    if a.Some? {
      ReadArgCanonical(values, s);
      ReadRestCanonical(values, a.value.rest);
    }
  }

  lemma ReadArrayCanonical(values: Values, s: string)
    requires Faithful(values)
    ensures var r := ReadArray(values, s); r.Some? ==> Decoded(values, r.value.value)
  {
    if s != "" && s[0] == '[' {
      ReadElementsCanonical(values, Skip(s[1..]));
    }
  }

  /** However a request was written, what is decoded from it prints in the canonical form. */
  lemma ParsedIsCanonical(values: Values, s: string)
    requires Faithful(values)
    ensures Parse(values, s).Some? ==> Decoded(values, Parse(values, s).value)
  {
    ReadArrayCanonical(values, Skip(s));
  }

  predicate AllDecoded(values: Values, lists: seq<seq<Arg>>) {
    forall i :: 0 <= i < |lists| ==> Decoded(values, lists[i])
  }

  lemma {:induction false} ReadMoreArraysCanonical(values: Values, s: string)
    requires Faithful(values)
    ensures var r := ReadMoreArrays(values, s); r.Some? ==> AllDecoded(values, r.value)
    decreases |s|, 1
  {
    var t := Skip(s);
    if t != "" && t[0] == ',' {
      ReadArraysCanonical(values, Skip(t[1..]));
    }
  }

  lemma {:induction false} ReadArraysCanonical(values: Values, s: string)
    requires Faithful(values)
    ensures var r := ReadArrays(values, s); r.Some? ==> AllDecoded(values, r.value)
    decreases |s|, 0
  {
    var a := ReadArray(values, s);
    if a.Some? {
      ReadArrayCanonical(values, s);
      ReadMoreArraysCanonical(values, a.value.rest);
    }
  }

  lemma ParsedAllAreCanonical(values: Values, s: string)
    requires Faithful(values)
    ensures var r := ParseAll(values, s); r.Some? ==> AllDecoded(values, r.value)
  {
    var t := Skip(s);
    if t != "" && t[0] == '[' {
      ReadArraysCanonical(values, Skip(t[1..]));
    }
  }

  // --- an instance ---

  predicate Digits(t: string) {
    |t| > 0 && forall i :: 0 <= i < |t| ==> '0' <= t[i] <= '9'
  }

  predicate IsNatural(t: string) {
    Digits(t) && (|t| > 1 ==> t[0] != '0')
  }

  predicate IsInteger(t: string) {
    IsNatural(t) || (|t| > 1 && t[0] == '-' && IsNatural(t[1..]))
  }

  /** Booleans, null, and integers, which may be written with a final ".0". */
  function SimpleValues(t: string): Option<string> {
    if t == "true" || t == "false" || t == "null" || IsInteger(t) then Some(t)
    else if |t| > 2 && t[|t| - 2..] == ".0" && IsInteger(t[..|t| - 2]) then Some(t[..|t| - 2])
    else None
  }

  /** Without quotes, brackets, commas and white space, a text is a value. */
  predicate PlainChar(c: char) {
    '0' <= c <= '9' || 'a' <= c <= 'z' || c == '-' || c == '.'
  }

  predicate IsPlain(t: string) {
    t != "" && forall i :: 0 <= i < |t| ==> PlainChar(t[i])
  }

  lemma {:induction false} PlainIsScanned(t: string)
    requires forall i :: 0 <= i < |t| ==> PlainChar(t[i])
    ensures Scanned(OUTSIDE, t)
    decreases |t|
  {
    if t != "" {
      PlainIsScanned(t[1..]);
      assert PlainChar(t[0]) && Next(OUTSIDE, t[0]) == OUTSIDE;
    }
  }

  lemma PlainIsValue(t: string)
    requires IsPlain(t)
    ensures IsValue(t)
  {
    PlainIsScanned(t);
    assert PlainChar(t[0]);
  }

  lemma IntegerIsPlain(t: string)
    requires IsInteger(t)
    ensures IsPlain(t)
  {
    if !IsNatural(t) {
      assert forall i :: 0 < i < |t| ==> t[i] == t[1..][i - 1];
    }
  }

  lemma SimpleValuesAreFaithful()
    ensures Faithful(SimpleValues)
  {
    forall t | SimpleValues(t).Some?
      ensures IsValue(SimpleValues(t).value) && SimpleValues(SimpleValues(t).value) == SimpleValues(t)
    {
      var v := SimpleValues(t).value;
      if IsInteger(v) {
        IntegerIsPlain(v);
      }
      PlainIsValue(v);
    }
  }

  lemma OneElement(t: string)
    requires IsPlain(t)
    ensures var v := SimpleValues(t);
      ReadElements(SimpleValues, t + "]") == if v.None? then None else Some(Read([Literal(v.value)], ""))
  {
    var s := t + "]";
    PlainIsScanned(t);
    ReadValueStops(OUTSIDE, t, "]");
    Closed(SimpleValues, "");
    assert "]" + "" == "]";
    assert PlainChar(t[0]) && s[0] != '"';
    var v := SimpleValues(t);
    assert ReadArg(SimpleValues, s) == if v.None? then None else Some(Read(Literal(v.value), "]"));
    if v.Some? {
      var none: seq<Arg> := [];
      assert [Literal(v.value)] + none == [Literal(v.value)];
      assert ReadRest(SimpleValues, "]") == Some(Read(none, ""));
    }
  }

  lemma OneValue(t: string)
    requires IsPlain(t)
    ensures var v := SimpleValues(t);
      Parse(SimpleValues, "[" + t + "]") == if v.None? then None else Some([Literal(v.value)])
  {
    var s := t + "]";
    OneElement(t);
    assert PlainChar(t[0]);
    AfterBracket(SimpleValues, s);
    assert "[" + t + "]" == "[" + s;
    SkipUnpadded("[" + s);
  }

  lemma SomeValues()
    ensures IsPlain("abc") && SimpleValues("abc") == None
    ensures IsPlain("1") && SimpleValues("1") == Some("1")
    ensures IsPlain("1.0") && SimpleValues("1.0") == Some("1")
  {
    assert "abc"[0] == 'a' && "abc"[1..][0] == 'b' && "abc"[1..] != ".0";
    assert "1.0"[1..] == ".0" && "1.0"[..1] == "1" && "1.0"[1] == '.';
  }

  lemma Bracketed()
    ensures "[" + "abc" + "]" == "[abc]" && "[" + "1.0" + "]" == "[1.0]" && "[" + "1" + "]" == "[1]"
  {
  }

  /** Like Go's decoder, this one refuses [abc], and reads 1.0 and 1 as the same value. */
  lemma SimpleDecoder()
    ensures Parse(SimpleValues, "[abc]") == None
    ensures Parse(SimpleValues, "[1.0]") == Parse(SimpleValues, "[1]") == Some([Literal("1")])
  {
    SomeValues();
    OneValue("abc");
    OneValue("1.0");
    OneValue("1");
    Bracketed();
  }

  // --- arrays nest ---

  /** The scan of `t` leads from `x` to `y` without closing the outermost bracket before. */
  predicate Passes(x: Scan, t: string, y: Scan)
    decreases |t|
  {
    if t == "" then x == y else x.depth > 0 && Passes(Next(x, t[0]), t[1..], y)
  }

  lemma {:induction false} PassesThen(x: Scan, a: string, y: Scan, b: string, z: Scan)
    requires Passes(x, a, y) && Passes(y, b, z)
    ensures Passes(x, a + b, z)
    decreases |a|
  {
    if a == "" {
      assert a + b == b;
    } else {
      assert (a + b)[1..] == a[1..] + b;
      PassesThen(Next(x, a[0]), a[1..], y, b, z);
    }
  }

  lemma PassesOne(x: Scan, c: char)
    requires x.depth > 0
    ensures Passes(x, [c], Next(x, c))
  {
    assert [c][1..] == "";
  }

  lemma {:induction false} PassesIsScanned(x: Scan, t: string)
    requires Passes(x, t, OUTSIDE)
    ensures Scanned(x, t)
    decreases |t|
  {
    if t != "" {
      PassesIsScanned(Next(x, t[0]), t[1..]);
    }
  }

  function Deeper(x: Scan): Scan {
    x.(depth := x.depth + 1)
  }

  const INSIDE: Scan := Scan(1, false, false)
  const QUOTED: Scan := Scan(1, true, false)

  /** What is a value by itself is passed over inside of a bracket. */
  lemma {:induction false} ValuePasses(x: Scan, t: string)
    requires Scanned(x, t)
    ensures Passes(Deeper(x), t, INSIDE)
    decreases |t|
  {
    if t != "" {
      assert Next(Deeper(x), t[0]) == Deeper(Next(x, t[0]));
      ValuePasses(Next(x, t[0]), t[1..]);
    }
  }

  /** Hexadecimal digits, like most characters, mean nothing inside a string. */
  lemma {:induction false} OrdinaryPasses(t: string)
    requires forall i :: 0 <= i < |t| ==> t[i] != '"' && t[i] != '\\'
    ensures Passes(QUOTED, t, QUOTED)
    decreases |t|
  {
    if t != "" {
      assert Next(QUOTED, t[0]) == QUOTED;
      OrdinaryPasses(t[1..]);
    }
  }

  lemma EscapePasses(c: char, rest: string)
    requires Passes(QUOTED, rest, QUOTED)
    ensures Passes(QUOTED, ['\\', c] + rest, QUOTED)
  {
    var t := ['\\', c] + rest;
    assert t[1..][0] == c && t[1..][1..] == rest;
    assert Next(Next(QUOTED, '\\'), c) == QUOTED;
  }

  lemma EscapedPiecePasses(p: Piece)
    ensures Passes(QUOTED, EscapePiece(p), QUOTED)
  {
    if p.Rune? && ShortEscape(p.c).Some? {
      EscapePasses(ShortEscape(p.c).value, "");
    } else if p.Rune? && !LongEscape(p.c) {
      OrdinaryPasses([p.c]);
    } else {
      var h := Hex4(if p.Rune? then p.c as int else 0xFFFD);
      OrdinaryPasses(h);
      EscapePasses('u', h);
    }
  }

  lemma {:induction false} EscapedPasses(s: GoString)
    ensures Passes(QUOTED, Escape(s), QUOTED)
    decreases |s|
  {
    if s != [] {
      EscapedPiecePasses(s[0]);
      EscapedPasses(s[1..]);
      PassesThen(QUOTED, EscapePiece(s[0]), QUOTED, Escape(s[1..]), QUOTED);
    }
  }

  lemma ArgPasses(a: Arg)
    requires a.Literal? ==> IsValue(a.text)
    ensures Passes(INSIDE, PrintArg(a), INSIDE)
  {
    if a.Literal? {
      ValuePasses(OUTSIDE, a.text);
    } else {
      PassesOne(INSIDE, '"');
      EscapedPasses(a.s);
      PassesOne(QUOTED, '"');
      PassesThen(INSIDE, "\"", QUOTED, Escape(a.s), QUOTED);
      PassesThen(INSIDE, "\"" + Escape(a.s), QUOTED, "\"", INSIDE);
    }
  }

  predicate AllValues(args: seq<Arg>) {
    forall i :: 0 <= i < |args| && args[i].Literal? ==> IsValue(args[i].text)
  }

  lemma {:induction false} RestPasses(args: seq<Arg>)
    requires AllValues(args)
    ensures Passes(INSIDE, PrintRest(args), OUTSIDE)
    decreases |args|
  {
    if args == [] {
      PassesOne(INSIDE, ']');
    } else {
      PassesOne(INSIDE, ',');
      ArgPasses(args[0]);
      RestPasses(args[1..]);
      PassesThen(INSIDE, ",", INSIDE, PrintArg(args[0]), INSIDE);
      PassesThen(INSIDE, "," + PrintArg(args[0]), INSIDE, PrintRest(args[1..]), OUTSIDE);
    }
  }

  /** What is printed after the opening bracket. */
  function AfterOpening(args: seq<Arg>): string {
    if args == [] then "]" else PrintArg(args[0]) + PrintRest(args[1..])
  }

  lemma Opening(args: seq<Arg>)
    ensures Print(args) == "[" + AfterOpening(args)
  {
  }

  lemma ElementsPass(args: seq<Arg>)
    requires AllValues(args)
    ensures Passes(INSIDE, AfterOpening(args), OUTSIDE)
  {
    if args == [] {
      PassesOne(INSIDE, ']');
    } else {
      ArgPasses(args[0]);
      RestPasses(args[1..]);
      PassesThen(INSIDE, PrintArg(args[0]), INSIDE, PrintRest(args[1..]), OUTSIDE);
    }
  }

  lemma BracketIsScanned(t: string)
    requires Scanned(INSIDE, t)
    ensures Scanned(OUTSIDE, "[" + t)
  {
    assert ("[" + t)[1..] == t;
  }

  /** A printed array is a value again, whatever its strings contain: arrays can be elements of arrays. */
  lemma PrintedIsValue(args: seq<Arg>)
    requires AllValues(args)
    ensures IsValue(Print(args))
  {
    PrintedIsOneLine(args);
    ElementsPass(args);
    PassesIsScanned(INSIDE, AfterOpening(args));
    BracketIsScanned(AfterOpening(args));
    Opening(args);
  }

  // --- lists of arrays ---

  function PrintMore(lists: seq<seq<Arg>>): string
    decreases |lists|
  {
    if lists == [] then "]" else "," + (Print(lists[0]) + PrintMore(lists[1..]))
  }

  /** The body of a request for several commands. */
  function PrintAll(lists: seq<seq<Arg>>): string {
    if lists == [] then "[]" else "[" + (Print(lists[0]) + PrintMore(lists[1..]))
  }

  function CoerceAll(lists: seq<seq<Arg>>): seq<seq<Arg>> {
    seq(|lists|, i requires 0 <= i < |lists| => CoerceArgs(lists[i]))
  }

  predicate AllCanonical(values: Values, lists: seq<seq<Arg>>) {
    forall i :: 0 <= i < |lists| ==> Canonical(values, lists[i])
  }

  lemma CoerceAllCons(lists: seq<seq<Arg>>)
    requires lists != []
    ensures [CoerceArgs(lists[0])] + CoerceAll(lists[1..]) == CoerceAll(lists)
  {
  }

  lemma ReadArraysCons(values: Values, args: seq<Arg>, rest: string, more: seq<seq<Arg>>)
    requires Canonical(values, args) && ReadMoreArrays(values, rest) == Some(more)
    ensures Unpadded(Print(args) + rest) && Print(args)[0] != ']'
    ensures ReadArrays(values, Print(args) + rest) == Some([CoerceArgs(args)] + more)
  {
    ReadPrintedArray(values, args, rest);
  }

  lemma MoreArrays(values: Values, s: string)
    requires Unpadded(s)
    ensures ReadMoreArrays(values, "," + s) == ReadArrays(values, s)
  {
    assert ("," + s)[1..] == s;
  }

  lemma {:induction false} ReadPrintedMore(values: Values, lists: seq<seq<Arg>>)
    requires AllCanonical(values, lists)
    ensures ReadMoreArrays(values, PrintMore(lists)) == Some(CoerceAll(lists))
    decreases |lists|
  {
    if lists == [] {
      assert "]"[1..] == "" && CoerceAll(lists) == [];
    } else {
      ReadPrintedMore(values, lists[1..]);
      ReadArraysCons(values, lists[0], PrintMore(lists[1..]), CoerceAll(lists[1..]));
      MoreArrays(values, Print(lists[0]) + PrintMore(lists[1..]));
      CoerceAllCons(lists);
    }
  }

  lemma AllAfterBracket(values: Values, s: string)
    requires Unpadded(s) && s[0] != ']'
    ensures ParseAll(values, "[" + s) == ReadArrays(values, s)
  {
    SkipUnpadded("[" + s);
    assert ("[" + s)[1..] == s;
  }

  /** A printed list of requests reads back as the same requests, but for stray bytes. */
  lemma ParsePrintAll(values: Values, lists: seq<seq<Arg>>)
    requires AllCanonical(values, lists)
    ensures ParseAll(values, PrintAll(lists)) == Some(CoerceAll(lists))
  {
    if lists == [] {
      assert "[]"[1..] == "]" && "]"[1..] == "" && CoerceAll(lists) == [];
    } else {
      ReadPrintedMore(values, lists[1..]);
      ReadArraysCons(values, lists[0], PrintMore(lists[1..]), CoerceAll(lists[1..]));
      AllAfterBracket(values, Print(lists[0]) + PrintMore(lists[1..]));
      CoerceAllCons(lists);
    }
  }

  // --- as Go prints them ---

  /** Letters, digits and most punctuation. */
  predicate Printable(s: string) {
    forall i :: 0 <= i < |s| ==> ShortEscape(s[i]) == None && !LongEscape(s[i])
  }

  /** They are printed as they are. */
  lemma {:induction false} PlainEscape(s: string)
    requires Printable(s)
    ensures Escape(Runes(s)) == s
    decreases |s|
  {
    if s != "" {
      PlainEscape(s[1..]);
      assert Runes(s)[1..] == Runes(s[1..]) && Runes(s)[0] == Rune(s[0]);
      assert [s[0]] + s[1..] == s;
    }
  }

  function Quoted(s: string): string {
    "\"" + s + "\""
  }

  lemma PrintedPlain(s: string, rest: seq<Arg>)
    requires Printable(s)
    ensures PrintArg(Text(Runes(s))) == Quoted(s)
    ensures PrintRest([Text(Runes(s))] + rest) == "," + Quoted(s) + PrintRest(rest)
    ensures Print([Text(Runes(s))] + rest) == "[" + Quoted(s) + PrintRest(rest)
  {
    PlainEscape(s);
    assert ([Text(Runes(s))] + rest)[1..] == rest;
  }

  /** A command is an array of its name and its arguments, each in quotes. */
  lemma PrintedCommand(name: string, key: string)
    requires Printable(name) && Printable(key)
    ensures Print([Text(Runes(name))] + [Text(Runes(key))]) == "[" + Quoted(name) + ("," + Quoted(key) + "]")
  {
    PrintedPlain(name, [Text(Runes(key))]);
    PrintedPlain(key, []);
    assert [Text(Runes(key))] + [] == [Text(Runes(key))];
  }

  lemma ShortEscapes()
    ensures EscapePiece(Rune('"')) == "\\\"" && EscapePiece(Rune('\\')) == "\\\\"
    ensures EscapePiece(Rune('\n')) == "\\n" && EscapePiece(Rune('\r')) == "\\r" && EscapePiece(Rune('\t')) == "\\t"
    ensures EscapePiece(Rune(8 as char)) == "\\b" && EscapePiece(Rune(12 as char)) == "\\f"
    ensures EscapePiece(Rune('/')) == "/" && EscapePiece(Rune('a')) == "a"
  {
  }

  lemma LongEscapes()
    ensures EscapePiece(Rune(0 as char)) == "\\u0000" && EscapePiece(Rune(0x1F as char)) == "\\u001f"
    ensures EscapePiece(Rune('<')) == "\\u003c" && EscapePiece(Rune('>')) == "\\u003e"
  {
  }

  lemma MoreLongEscapes()
    ensures EscapePiece(Rune('&')) == "\\u0026" && EscapePiece(Rune(0x2028 as char)) == "\\u2028"
    ensures EscapePiece(Stray(0xFF)) == "\\ufffd"
  {
  }

  lemma CoercedBytes(c: char, b: Base64.byte)
    ensures Coerce([Rune(c), Stray(b)]) == [Rune(c), Rune(0xFFFD as char)]
  {
  }
}
