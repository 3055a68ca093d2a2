// Text framing: how a text is cut into lines, and what a framed text is.
module Lines {
  import opened Seqs

  /** A line as the encoder produces it: no raw line break (section 7 of RFC 8259). */
  predicate Plain(line: string) {
    '\n' !in line && '\r' !in line
  }

  function FirstBreak(text: string): (k: nat)
    ensures k <= |text|
    ensures forall j :: 0 <= j < k ==> text[j] != '\n'
    ensures k < |text| ==> text[k] == '\n'
  {
    if text == "" || text[0] == '\n' then 0 else FirstBreak(text[1..]) + 1
  }

  function StripReturn(line: string): string {
    if line != "" && line[|line| - 1] == '\r' then line[..|line| - 1] else line
  }

  /** The cut made by Rust's `str::lines`: a terminator is LF or CR LF; an unterminated rest is a line as it stands. */
  function Split(text: string): seq<string>
    decreases |text|
  {
    if text == "" then [] else
    var k := FirstBreak(text);
    if k == |text| then [text] else [StripReturn(text[..k])] + Split(text[k + 1..])
  }

  /** The text obtained by writing each line followed by LF. */
  function Frame(lines: seq<string>): string {
    if lines == [] then "" else Frame(lines[..|lines| - 1]) + lines[|lines| - 1] + "\n"
  }

  /** Whether the next character written would start a new line. */
  predicate AtLineStart(text: string) {
    text == "" || text[|text| - 1] == '\n'
  }

  lemma FirstBreakIs(text: string, k: nat)
    requires k < |text| && text[k] == '\n' && '\n' !in text[..k]
    ensures FirstBreak(text) == k
  {
    var b := FirstBreak(text);
    assert forall j :: 0 <= j < k ==> text[..k][j] != '\n';
  }

  /** Cutting off the first line. */
  lemma SplitFirst(line: string, rest: string)
    requires '\n' !in line
    ensures Split(line + "\n" + rest) == [StripReturn(line)] + Split(rest)
  {
    var text := line + "\n" + rest;
    assert text[..|line|] == line;
    FirstBreakIs(text, |line|);
    assert text[|line| + 1..] == rest;
  }

  /** A text with a break is its first line, the break, and the rest. */
  lemma CutFirst(text: string) returns (line: string, rest: string)
    requires FirstBreak(text) < |text|
    ensures line == text[..FirstBreak(text)] && rest == text[FirstBreak(text) + 1..]
    ensures text == line + "\n" + rest && '\n' !in line
    ensures AtLineStart(text) ==> AtLineStart(rest)
  {
    hide Split, Frame;
    var k := FirstBreak(text);
    line, rest := text[..k], text[k + 1..];
    assert forall j :: 0 <= j < |line| ==> line[j] != '\n';
    assert "\n" == [text[k]];
  }

  lemma Regroup(line: string, rest: string, more: string)
    ensures line + "\n" + rest + more == line + "\n" + (rest + more)
  {}

  /** Cutting a concatenation at a line start cuts both halves independently. */
  lemma {:induction false} SplitConcat(a: string, b: string)
    requires AtLineStart(a)
    ensures Split(a + b) == Split(a) + Split(b)
    decreases |a|
  {
    if a == "" {
      assert a + b == b;
    } else {
      hide Split;
      var line, rest := CutFirst(a);
      SplitFirst(line, rest);
      SplitFirst(line, rest + b);
      SplitConcat(rest, b);
      Regroup(line, rest, b);
      Assoc([StripReturn(line)], Split(rest), Split(b));
    }
  }

  lemma SplitOne(line: string)
    requires '\n' !in line
    ensures Split(line + "\n") == [StripReturn(line)]
  {
    SplitFirst(line, "");
    assert line + "\n" + "" == line + "\n";
  }

  /** Both terminators end a line and neither is part of it; a rest without one is a line as it stands, CR and all. */
  lemma Terminators(text: string, line: string)
    requires AtLineStart(text) && '\n' !in line
    ensures Split(text + line + "\r\n") == Split(text) + [line]
    ensures line != "" ==> Split(text + line) == Split(text) + [line]
    ensures (line == "" || line[|line| - 1] != '\r') ==> Split(text + line + "\n") == Split(text) + [line]
  {
    StripsOne(line);
    if line != "" {
      SplitUnterminated(line);
    }
    hide Split, StripReturn;
    var ended := line + "\r";
    assert text + line + "\r\n" == text + ended + "\n";
    SplitSnoc(text, ended);
    SplitConcat(text, line);
    SplitSnoc(text, line);
  }

  lemma StripsOne(line: string)
    ensures StripReturn(line + "\r") == line
    ensures (line == "" || line[|line| - 1] != '\r') ==> StripReturn(line) == line
  {
    SnocParts(line, '\r');
  }

  lemma SplitUnterminated(line: string)
    requires '\n' !in line && line != ""
    ensures Split(line) == [line]
  {
    NoBreak(line);
  }

  lemma NoBreak(line: string)
    requires '\n' !in line
    ensures FirstBreak(line) == |line|
  {
    var b := FirstBreak(line);
    assert forall j :: 0 <= j < |line| ==> line[j] in line;
  }


  /** Writing one more line to a text that is at a line start adds exactly that line. */
  lemma SplitSnoc(text: string, line: string)
    requires AtLineStart(text) && '\n' !in line
    ensures Split(text + line + "\n") == Split(text) + [StripReturn(line)]
    ensures AtLineStart(text + line + "\n")
  {
    assert text + line + "\n" == text + (line + "\n");
    SplitConcat(text, line + "\n");
    SplitOne(line);
  }

  /** Framing is inverted by cutting. */
  lemma {:induction false} SplitFrame(lines: seq<string>)
    requires forall k :: 0 <= k < |lines| ==> Plain(lines[k])
    ensures Split(Frame(lines)) == lines
    ensures AtLineStart(Frame(lines))
  {
    if lines != [] {
      hide Split;
      var init, l := lines[..|lines| - 1], lines[|lines| - 1];
      SplitFrame(init);
      assert Plain(l);
      SplitSnoc(Frame(init), l);
      assert StripReturn(l) == l;
      assert lines == init + [l];
    }
  }

  /** Cut lines never contain LF, whatever the text. */
  lemma {:induction false} SplitBreakFree(text: string)
    ensures forall k :: 0 <= k < |Split(text)| ==> '\n' !in Split(text)[k]
    decreases |text|
  {
    if text != "" {
      var k := FirstBreak(text);
      if k < |text| {
        SplitBreakFree(text[k + 1..]);
      } else {
        assert text[..k] == text;
      }
    }
  }

  /** Reading back framed lines gives as many lines as were framed, even lines ending in CR. */
  lemma {:induction false} SplitFrameCount(lines: seq<string>)
    requires forall k :: 0 <= k < |lines| ==> '\n' !in lines[k]
    ensures |Split(Frame(lines))| == |lines|
    ensures AtLineStart(Frame(lines))
  {
    if lines != [] {
      hide Split;
      var init, l := lines[..|lines| - 1], lines[|lines| - 1];
      SplitFrameCount(init);
      SplitSnoc(Frame(init), l);
    }
  }

  /** Appending a piece whose only LF is its last character adds at most one line, torn text or not. */
  lemma {:induction false} SplitAppendPiece(text: string, piece: string)
    requires forall j :: 0 <= j < |piece| - 1 ==> piece[j] != '\n'
    ensures |Split(text + piece)| <= |Split(text)| + 1
    decreases |text|
  {
    var k := FirstBreak(text);
    if k < |text| {
      hide Split;
      var line, rest := CutFirst(text);
      Regroup(line, rest, piece);
      SplitFirst(line, rest);
      SplitFirst(line, rest + piece);
      SplitAppendPiece(rest, piece);
    } else {
      var all := text + piece;
      var b := FirstBreak(all);
      assert forall j :: 0 <= j < |text| ==> all[j] == text[j];
      assert forall j :: 0 <= j < |piece| ==> all[|text| + j] == piece[j];
      assert b >= |all| - 1;
      if b < |all| { assert all[b + 1..] == ""; }
    }
  }
}
