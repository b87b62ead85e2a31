/** Rewriting a request head is a fixed point of itself. */
module HttpRewrite {
  import opened AsciiText
  import opened Common
  import opened HttpText
  import opened HttpRequest

  // ---- Lines ----

  predicate IsLine(line: string) { line != "" && Free(line, '\r') }

  predicate AreLines(lines: seq<string>) {
    forall i :: 0 <= i < |lines| ==> IsLine(lines[i])
  }

  lemma {:induction false} LineEndAt(line: string, rest: string)
    requires Free(line, '\r')
    ensures LineEnd(line + "\r\n" + rest) == |line|
  {
    var s := line + "\r\n" + rest;
    if line != "" {
      assert s[1..] == line[1..] + "\r\n" + rest;
      LineEndAt(line[1..], rest);
    }
  }

  lemma FirstLine(line: string, rest: string)
    requires Free(line, '\r')
    ensures Lines(line + "\r\n" + rest) == [line] + Lines(rest)
  {
    var s := line + "\r\n" + rest;
    LineEndAt(line, rest);
    assert s[..|line|] == line && s[|line| + 2..] == rest;
  }

  /** Writing lines out and splitting them again gives the lines, then the empty one that ends the head. */
  lemma {:induction false} LinesOfUnlines(lines: seq<string>)
    requires AreLines(lines)
    ensures Lines(Unlines(lines) + "\r\n") == lines + ["", ""]
  {
    hide Lines, Unlines;
    if lines == [] {
      NoLines();
    } else {
      var rest := Unlines(lines[1..]) + "\r\n";
      LinesOfUnlines(lines[1..]);
      FirstLine(lines[0], rest);
      UnlinesFirst(lines);
      assert [lines[0]] + (lines[1..] + ["", ""]) == lines + ["", ""];
    }
  }

  lemma NoLines()
    ensures Lines(Unlines([]) + "\r\n") == ["", ""]
  {
    FirstLine("", "");
    assert "" + "\r\n" + "" == "\r\n" && Unlines([]) + "\r\n" == "\r\n";
  }

  lemma UnlinesFirst(lines: seq<string>)
    requires lines != []
    ensures Unlines(lines) + "\r\n" == lines[0] + "\r\n" + (Unlines(lines[1..]) + "\r\n")
  {
  }

  lemma {:induction false} HeadOfLines(lines: seq<string>)
    requires AreLines(lines)
    ensures HeadOf(lines + ["", ""]) == lines
  {
    if lines != [] {
      assert (lines + ["", ""])[1..] == lines[1..] + ["", ""];
      HeadOfLines(lines[1..]);
    }
  }

  lemma {:induction false} SplitFree(s: string, c: char, d: char)
    requires c != d && forall i :: 0 <= i < |Split(s, c)| ==> Free(Split(s, c)[i], d)
    ensures Free(s, d)
    decreases |s|
  {
    var i, pieces := IndexOfChar(s, c), Split(s, c);
    if i < |s| {
      assert pieces[0] == s[..i] && pieces[1..] == Split(s[i + 1..], c);
      SplitFree(s[i + 1..], c, d);
      assert forall j :: 0 <= j < i ==> s[j] == pieces[0][j];
      assert forall j :: i < j < |s| ==> s[j] == s[i + 1..][j - i - 1];
    } else {
      assert pieces[0] == s;
    }
  }

  lemma RequestLineIsLine(line: string)
    requires line != "" && ParseRequestLine(line).Some?
    ensures IsLine(line)
  {
    var parts := Split(line, ' ');
    assert Free(parts[0], '\r') && Free(parts[1], '\r') && Free(parts[2], '\r');
    SplitFree(line, ' ', '\r');
  }

  lemma FieldIsLine(line: string)
    requires IsField(line)
    ensures IsLine(line)
  {
    var colon := IndexOfChar(line, ':');
    assert line[colon] == ':';
    forall i | 0 <= i < |line|
      ensures line[i] != '\r'
    {
      if i < colon {
        assert line[i] == line[..colon][i];
      } else if i > colon {
        assert line[i] == line[colon + 1..][i - colon - 1];
        assert !IsForbiddenControl(line[i] as int);
      }
    }
  }

  // ---- Fields ----

  lemma FieldOf(name: string, value: string)
    requires IsToken(name) && !HasControl(value)
    ensures
      var line := Field(name, value);
      IsField(line) && NameOf(line) == name && ValueOf(line) == " " + value
  {
    var line := Field(name, value);
    assert Free(name, ':');
    IndexOfFirst(name, ':', " " + value);
    assert line == name + [':'] + (" " + value);
    assert line[..|name|] == name && line[|name| + 1..] == " " + value;
    forall i | 0 <= i < |" " + value|
      ensures !IsForbiddenControl((" " + value)[i] as int)
    {
      assert i > 0 ==> (" " + value)[i] == value[i - 1];
    }
  }

  lemma TrimOneSpace(value: string)
    requires value != "" && !IsSpace(value[0]) && !IsSpace(value[|value| - 1])
    ensures Trim(" " + value) == value
  {
    var padded := " " + value;
    assert padded[1..] == value && IsSpace(padded[0]);
    assert TrimStart(value) == value;
    assert TrimStart(padded) == TrimStart(padded[1..]);
  }

  lemma {:induction false} TrimStartKeeps(s: string)
    ensures !HasControl(s) ==> !HasControl(TrimStart(s))
  {
    if s != "" && IsSpace(s[0]) {
      TrimStartKeeps(s[1..]);
      assert forall i :: 0 <= i < |s[1..]| ==> s[1..][i] == s[i + 1];
    }
  }

  lemma {:induction false} TrimEndKeeps(s: string)
    ensures !HasControl(s) ==> !HasControl(TrimEnd(s))
  {
    if s != "" && IsSpace(s[|s| - 1]) {
      TrimEndKeeps(s[..|s| - 1]);
      assert forall i :: 0 <= i < |s[..|s| - 1]| ==> s[..|s| - 1][i] == s[i];
    }
  }

  // ---- Reading the kept lines again ----

  predicate Keeps(kind: Kind) {
    kind in {Host, ContentLength, WsKey, WsVersion, WsProtocol, WsExtensions, Plain}
  }

  predicate HasWsFields(st: Scan) {
    st.wsKey.Some? || st.wsVersion.Some? || st.wsProtocol || st.wsExtensions
  }

  /** What reading only the kept lines again would have found. */
  function Echo(st: Scan): Scan {
    st.(transferEncoding := None, expectation := None, connection := None, upgrade := None, wsSeen := HasWsFields(st))
  }

  lemma InterpretEchoes(st: Scan, line: string, kind: Kind, value: string)
    requires Interpret(st, line, kind, value).Ok?
    ensures
      var st' := Interpret(st, line, kind, value).value;
      if Keeps(kind)
      then st'.kept == st.kept + [line] && Interpret(Echo(st), line, kind, value) == Ok(Echo(st'))
      else st'.kept == st.kept && Echo(st') == Echo(st)
  {
    hide NormalizeHost, ParseContentLength, Trim;
  }

  lemma {:induction false} ReadAppend(st: Scan, first: seq<string>, second: seq<string>)
    ensures ReadLines(st, first + second) ==
      if ReadLines(st, first).Err? then ReadLines(st, first) else ReadLines(ReadLines(st, first).value, second)
  {
    hide ReadLine;
    if second == [] {
      assert first + second == first;
    } else {
      var all := first + second;
      assert all[..|all| - 1] == first + second[..|second| - 1];
      ReadAppend(st, first, second[..|second| - 1]);
    }
  }

  lemma ReadOne(st: Scan, line: string)
    ensures ReadLines(st, [line]) == ReadLine(st, line)
  {
    assert [line][..0] == [];
  }

  /** Reading the kept lines again keeps them all and finds what they said the first time. */
  lemma {:induction false} KeptEchoes(lines: seq<string>)
    requires ReadLines(START, lines).Ok?
    ensures
      var st := ReadLines(START, lines).value;
      ReadLines(START, st.kept) == Ok(Echo(st))
  {
    if lines != [] {
      hide Interpret, Echo, IsField, KindOf;
      var before, line := lines[..|lines| - 1], lines[|lines| - 1];
      KeptEchoes(before);
      var st := ReadLines(START, before).value;
      var kind := KindOf(NameOf(line));
      InterpretEchoes(st, line, kind, ValueOf(line));
      if Keeps(kind) {
        ReadAppend(START, st.kept, [line]);
        ReadOne(Echo(st), line);
      }
    } else {
      assert Echo(START) == START;
    }
  }

  // ---- What the kept lines are ----

  predicate ScanOk(st: Scan) {
    && (HasWsFields(st) ==> st.wsSeen)
    && !HasControl(st.authority)
    && (forall i :: 0 <= i < |st.kept| ==> IsField(st.kept[i]) && Keeps(KindOf(NameOf(st.kept[i]))))
  }

  lemma InterpretFacts(st: Scan, line: string, kind: Kind, value: string)
    requires (HasWsFields(st) ==> st.wsSeen) && Interpret(st, line, kind, value).Ok?
    ensures
      var st' := Interpret(st, line, kind, value).value;
      && (HasWsFields(st') ==> st'.wsSeen)
      && (st'.authority == st.authority || st'.authority == Trim(value))
  {
    hide NormalizeHost, ParseContentLength, Trim;
  }

  lemma InterpretKeepsOk(st: Scan, line: string)
    requires ScanOk(st) && ReadLine(st, line).Ok?
    ensures ScanOk(ReadLine(st, line).value)
  {
    TrimStartKeeps(ValueOf(line));
    TrimEndKeeps(TrimStart(ValueOf(line)));
    assert !HasControl(Trim(ValueOf(line)));
    hide Interpret, Trim, KindOf, HasControl, IsToken, Echo;
    InterpretEchoes(st, line, KindOf(NameOf(line)), ValueOf(line));
    InterpretFacts(st, line, KindOf(NameOf(line)), ValueOf(line));
  }

  lemma {:induction false} ReadingKeepsOk(lines: seq<string>)
    requires ReadLines(START, lines).Ok?
    ensures ScanOk(ReadLines(START, lines).value)
  {
    if lines != [] {
      hide ReadLine, ScanOk;
      ReadingKeepsOk(lines[..|lines| - 1]);
      InterpretKeepsOk(ReadLines(START, lines[..|lines| - 1]).value, lines[|lines| - 1]);
    }
  }
}
