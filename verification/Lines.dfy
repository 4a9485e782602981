/** Newline-delimited files: splitting, trimming, and what survives of each. */
module Lines {
  /** Go's unicode.IsSpace. */
  predicate IsSpace(c: char) {
    var n := c as int;
    || 9 <= n <= 13 || n == 0x20 || n == 0x85 || n == 0xA0 || n == 0x1680
    || 0x2000 <= n <= 0x200A || n == 0x2028 || n == 0x2029 || n == 0x202F || n == 0x205F || n == 0x3000
  }

  function TrimLeft(s: string): string {
    if s != "" && IsSpace(s[0]) then TrimLeft(s[1..]) else s
  }

  function TrimRight(s: string): string {
    if s != "" && IsSpace(s[|s| - 1]) then TrimRight(s[..|s| - 1]) else s
  }

  function TrimSpace(s: string): string {
    TrimRight(TrimLeft(s))
  }

  /** The lines of a file that starts with `c` and goes on with `rest`. */
  function Consed(c: char, rest: seq<string>): seq<string>
    requires |rest| > 0
  {
    if c == '\n' then [""] + rest else [[c] + rest[0]] + rest[1..]
  }

  function Split(s: string): (lines: seq<string>)
    ensures |lines| > 0
  {
    if s == "" then [""] else Consed(s[0], Split(s[1..]))
  }

  /** The lines that are not blank, trimmed. */
  function Entries(lines: seq<string>): seq<string>
    decreases |lines|
  {
    if lines == [] then []
    else
      var line := TrimSpace(lines[0]);
      (if line == "" then [] else [line]) + Entries(lines[1..])
  }

  lemma {:induction false} TrimLeftSnoc(s: string, c: char)
    requires IsSpace(c)
    ensures TrimLeft(s + [c]) == (if TrimLeft(s) == "" then "" else TrimLeft(s) + [c])
  {
    if s == "" {
      assert s + [c] == [c] && [c][1..] == "";
    } else if IsSpace(s[0]) {
      assert (s + [c])[1..] == s[1..] + [c];
      TrimLeftSnoc(s[1..], c);
    }
  }

  lemma TrimSnoc(s: string, c: char)
    requires IsSpace(c)
    ensures TrimSpace(s + [c]) == TrimSpace(s)
  {
    TrimLeftSnoc(s, c);
    var t := TrimLeft(s);
    if t != "" {
      assert (t + [c])[..|t|] == t;
    }
  }

  lemma {:induction false} EntriesConcat(a: seq<string>, b: seq<string>)
    ensures Entries(a + b) == Entries(a) + Entries(b)
    decreases |a|
  {
    if a == [] {
      assert a + b == b;
    } else {
      assert (a + b)[1..] == a[1..] + b;
      EntriesConcat(a[1..], b);
    }
  }

  function Extended(lines: seq<string>, c: char): seq<string>
    requires |lines| > 0
  {
    if c == '\n' then lines + [""] else lines[..|lines| - 1] + [lines[|lines| - 1] + [c]]
  }

  lemma ExtendedConsed(b: char, rest: seq<string>, c: char)
    requires |rest| > 0
    ensures Extended(Consed(b, rest), c) == Consed(b, Extended(rest, c))
  {
    if b != '\n' && c != '\n' && |rest| > 1 {
      var n := |rest| - 1;
      assert Extended(rest, c)[0] == rest[0] && Extended(rest, c)[1..] == rest[1..n] + [rest[n] + [c]];
      assert Consed(b, rest)[..n] == [[b] + rest[0]] + rest[1..n];
    } else if b != '\n' && c != '\n' {
      assert [b] + (rest[0] + [c]) == [b] + rest[0] + [c];
    }
  }

  lemma {:induction false} SplitSnoc(s: string, c: char)
    ensures Split(s + [c]) == Extended(Split(s), c)
  {
    if s == "" {
      assert s + [c] == [c] && [c][1..] == "";
      assert Split([c]) == Consed(c, [""]);
      assert [c] + "" == "" + [c];
      assert Consed(c, [""]) == Extended([""], c);
    } else {
      assert (s + [c])[1..] == s[1..] + [c];
      SplitSnoc(s[1..], c);
      ExtendedConsed(s[0], Split(s[1..]), c);
    }
  }

  lemma EntriesSnoc(s: string, c: char)
    requires IsSpace(c)
    ensures Entries(Split(s + [c])) == Entries(Split(s))
  {
    SplitSnoc(s, c);
    var lines := Split(s);
    if c == '\n' {
      EntriesConcat(lines, [""]);
      assert Entries([""]) == [];
    } else {
      var n := |lines| - 1;
      assert lines == lines[..n] + [lines[n]];
      EntriesConcat(lines[..n], [lines[n]]);
      EntriesConcat(lines[..n], [lines[n] + [c]]);
      TrimSnoc(lines[n], c);
    }
  }

  lemma EntriesCons(s: string)
    requires s != "" && IsSpace(s[0])
    ensures Entries(Split(s[1..])) == Entries(Split(s))
  {
    var rest := Split(s[1..]);
    if s[0] == '\n' {
      assert ([""] + rest)[1..] == rest;
    } else {
      var line := [s[0]] + rest[0];
      assert line[1..] == rest[0];
      assert Split(s)[1..] == rest[1..];
    }
  }

  lemma {:induction false} EntriesTrimRight(s: string)
    ensures Entries(Split(TrimRight(s))) == Entries(Split(s))
  {
    if s != "" && IsSpace(s[|s| - 1]) {
      assert s == s[..|s| - 1] + [s[|s| - 1]];
      EntriesSnoc(s[..|s| - 1], s[|s| - 1]);
      EntriesTrimRight(s[..|s| - 1]);
    }
  }

  lemma {:induction false} EntriesTrimLeft(s: string)
    ensures Entries(Split(TrimLeft(s))) == Entries(Split(s))
  {
    if s != "" && IsSpace(s[0]) {
      EntriesCons(s);
      EntriesTrimLeft(s[1..]);
    }
  }

  /** Trimming the whole file first loses no line and changes none. */
  lemma TrimmingFileIsHarmless(s: string)
    ensures Entries(Split(TrimSpace(s))) == Entries(Split(s))
  {
    EntriesTrimRight(TrimLeft(s));
    EntriesTrimLeft(s);
  }

  // --- files written line by line ---

  /** A line that can be written on its own and comes back unchanged. */
  predicate Framed(line: string) {
    && line != "" && !IsSpace(line[0]) && !IsSpace(line[|line| - 1])
    && forall i :: 0 <= i < |line| ==> line[i] != '\n'
  }

  predicate AllFramed(lines: seq<string>) {
    forall i :: 0 <= i < |lines| ==> Framed(lines[i])
  }

  function File(lines: seq<string>): string
    decreases |lines|
  {
    if lines == [] then "" else lines[0] + "\n" + File(lines[1..])
  }

  lemma {:induction false} FileConcat(a: seq<string>, b: seq<string>)
    ensures File(a + b) == File(a) + File(b)
    decreases |a|
  {
    if a == [] {
      assert a + b == b;
    } else {
      assert (a + b)[1..] == a[1..] + b;
      FileConcat(a[1..], b);
    }
  }

  lemma {:induction false} SplitLine(line: string, rest: string)
    requires forall i :: 0 <= i < |line| ==> line[i] != '\n'
    ensures Split(line + "\n" + rest) == [line] + Split(rest)
  {
    var s := line + "\n" + rest;
    if line == "" {
      assert s[0] == '\n' && s[1..] == rest;
    } else {
      assert s[1..] == line[1..] + "\n" + rest;
      SplitLine(line[1..], rest);
      assert Split(s[1..])[0] == line[1..] && Split(s[1..])[1..] == Split(rest);
      assert [line[0]] + line[1..] == line;
    }
  }

  /** A file of framed lines gives back exactly those lines. */
  lemma {:induction false} EntriesOfFile(lines: seq<string>)
    requires AllFramed(lines)
    ensures Entries(Split(File(lines))) == lines
    decreases |lines|
  {
    if lines == [] {
      assert Split("") == [""] && Entries([""]) == [];
    } else {
      SplitLine(lines[0], File(lines[1..]));
      EntriesOfFile(lines[1..]);
      var split := Split(File(lines));
      assert split[0] == lines[0] && split[1..] == Split(File(lines[1..]));
      assert [lines[0]] + lines[1..] == lines;
    }
  }

  // --- what splitting and trimming do ---

  /** The lines with a line break between them. */
  function Rejoined(lines: seq<string>): string
    requires |lines| > 0
  {
    if |lines| == 1 then lines[0] else lines[0] + ("\n" + Rejoined(lines[1..]))
  }

  lemma RejoinedCons(line: string, rest: seq<string>)
    requires |rest| > 0
    ensures Rejoined([line] + rest) == line + ("\n" + Rejoined(rest))
  {
    assert ([line] + rest)[1..] == rest;
  }

  lemma LongerLine(c: char, line: string, rest: seq<string>)
    requires |rest| > 0
    ensures Rejoined([[c] + line] + rest) == [c] + Rejoined([line] + rest)
  {
    RejoinedCons(line, rest);
    RejoinedCons([c] + line, rest);
    Associates([c], line, "\n" + Rejoined(rest));
  }

  lemma Associates(a: string, b: string, c: string)
    ensures (a + b) + c == a + (b + c)
  {
  }

  lemma ConsedRejoined(c: char, rest: seq<string>)
    requires |rest| > 0
    ensures Rejoined(Consed(c, rest)) == [c] + Rejoined(rest)
  {
    if c == '\n' {
      RejoinedCons("", rest);
    } else if |rest| == 1 {
      assert Consed(c, rest) == [[c] + rest[0]];
    } else {
      LongerLine(c, rest[0], rest[1..]);
      assert rest == [rest[0]] + rest[1..];
    }
  }

  /** Splitting loses nothing, and no line has a line break in it. */
  lemma {:induction false} SplitIsExact(s: string)
    ensures Rejoined(Split(s)) == s
    ensures forall i, j :: 0 <= i < |Split(s)| && 0 <= j < |Split(s)[i]| ==> Split(s)[i][j] != '\n'
  {
    if s != "" {
      SplitIsExact(s[1..]);
      ConsedRejoined(s[0], Split(s[1..]));
      assert [s[0]] + s[1..] == s;
    }
  }

  predicate AllSpace(s: string) {
    forall i :: 0 <= i < |s| ==> IsSpace(s[i])
  }

  lemma {:induction false} TrimLeftIsExact(s: string) returns (a: string)
    ensures s == a + TrimLeft(s) && AllSpace(a) && (TrimLeft(s) != "" ==> !IsSpace(TrimLeft(s)[0]))
  {
    if s != "" && IsSpace(s[0]) {
      a := TrimLeftIsExact(s[1..]);
      assert [s[0]] + (a + TrimLeft(s)) == ([s[0]] + a) + TrimLeft(s);
      a := [s[0]] + a;
    } else {
      a := "";
    }
  }

  lemma {:induction false} TrimRightIsExact(s: string) returns (b: string)
    ensures s == TrimRight(s) + b && AllSpace(b)
    ensures TrimRight(s) != "" ==> !IsSpace(TrimRight(s)[|TrimRight(s)| - 1])
  {
    if s != "" && IsSpace(s[|s| - 1]) {
      b := TrimRightIsExact(s[..|s| - 1]);
      assert s == (TrimRight(s) + b) + [s[|s| - 1]];
      assert (TrimRight(s) + b) + [s[|s| - 1]] == TrimRight(s) + (b + [s[|s| - 1]]);
      b := b + [s[|s| - 1]];
    } else {
      b := "";
    }
  }

  /** Trimming takes the white space at both ends and nothing else. */
  lemma TrimIsExact(s: string) returns (a: string, b: string)
    ensures s == a + TrimSpace(s) + b && AllSpace(a) && AllSpace(b)
    ensures var t := TrimSpace(s); t != "" ==> !IsSpace(t[0]) && !IsSpace(t[|t| - 1])
  {
    a := TrimLeftIsExact(s);
    b := TrimRightIsExact(TrimLeft(s));
    assert a + (TrimSpace(s) + b) == a + TrimSpace(s) + b;
    if TrimSpace(s) != "" {
      assert TrimLeft(s)[0] == TrimSpace(s)[0];
    }
  }

  lemma WhiteSpace()
    ensures IsSpace(' ') && IsSpace('\t') && IsSpace('\n') && IsSpace('\r') && IsSpace(0x3000 as char)
    ensures !IsSpace('a') && !IsSpace('"') && !IsSpace('[') && !IsSpace('0')
  {
  }
}
