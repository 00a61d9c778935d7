/**
  The line filter of tail_log(): each of the last `limit` log lines is
  trimmed with PHP's default trim() set and dropped when PHP's empty() holds
  for it.
 */
module LogTail {

  /** PHP trim()'s default set: space, tab, newline, carriage return, NUL and vertical tab. */
  predicate IsTrimChar(c: char)
  {
    c == ' ' || c == '\t' || c == '\n' || c == '\r' || c == '\0' || c == '\U{000B}'
  }

  /** rtrim(s). */
  function TrimEnd(s: string): (r: string)
    ensures |r| <= |s| && r == s[..|r|]
    ensures forall i :: |r| <= i < |s| ==> IsTrimChar(s[i])
    ensures r == [] || !IsTrimChar(r[|r| - 1])
  {
    if |s| > 0 && IsTrimChar(s[|s| - 1]) then TrimEnd(s[..|s| - 1]) else s
  }

  /** ltrim(s). */
  function TrimStart(s: string): (r: string)
    ensures |r| <= |s| && r == s[|s| - |r|..]
    ensures forall i :: 0 <= i < |s| - |r| ==> IsTrimChar(s[i])
    ensures r == [] || !IsTrimChar(r[0])
  {
    if |s| > 0 && IsTrimChar(s[0]) then TrimStart(s[1..]) else s
  }

  /** trim(s): no trim character at either end (TrimAllBlank says when it is empty). */
  function Trim(s: string): (r: string)
    ensures |r| <= |s|
    ensures r == [] || (!IsTrimChar(r[0]) && !IsTrimChar(r[|r| - 1]))
  {
    TrimEnds(s);
    TrimStart(TrimEnd(s))
  }

  lemma TrimEnds(s: string)
    ensures var r := TrimStart(TrimEnd(s));
            r == [] || (!IsTrimChar(r[0]) && !IsTrimChar(r[|r| - 1]))
    ensures var r := TrimStart(TrimEnd(s));
            r == [] <==> forall i :: 0 <= i < |s| ==> IsTrimChar(s[i])
  {
    var e := TrimEnd(s);
    var r := TrimStart(e);
    if r != [] {
      assert r[|r| - 1] == e[|e| - 1];
      var k := |e| - |r|;
      assert s[k] == e[k] == r[0];
    } else {
      forall i | 0 <= i < |s| ensures IsTrimChar(s[i]) {
        if i < |e| { assert s[i] == e[i]; }
      }
    }
  }

  /** trim(s) is empty exactly when s holds nothing but trim characters. */
  lemma TrimAllBlank(s: string)
    ensures Trim(s) == [] <==> forall i :: 0 <= i < |s| ==> IsTrimChar(s[i])
  {
    TrimEnds(s);
  }

  /** Trimming an already trimmed line changes nothing. */
  lemma TrimIdempotent(s: string)
    ensures Trim(Trim(s)) == Trim(s)
  {
    var t := Trim(s);
    if t != [] {
      assert TrimEnd(t) == t;
      assert TrimStart(t) == t;
    }
  }

  /** PHP's empty() on a string: "" and "0" are empty. */
  predicate IsBlank(line: string): (blank: bool)
    ensures blank ==> |line| <= 1
    ensures |line| == 1 ==> (blank <==> line[0] == '0')
  {
    line == "" || line == "0"
  }

  /** The last `limit` lines, the whole log when it is shorter. */
  function Tail(lines: seq<string>, limit: nat): (r: seq<string>)
    ensures |r| == if |lines| <= limit then |lines| else limit
    ensures r == lines[|lines| - |r|..]
  {
    if |lines| <= limit then lines else lines[|lines| - limit..]
  }

  /** The trimmed, non-blank lines, in their original order. */
  function KeptLines(lines: seq<string>): (out: seq<string>)
    ensures |out| <= |lines|
    decreases |lines|
  {
    if lines == [] then []
    else
      var t := Trim(lines[|lines| - 1]);
      KeptLines(lines[..|lines| - 1]) + (if IsBlank(t) then [] else [t])
  }

  /** Every kept line is trimmed and not empty() in PHP's sense. */
  lemma {:induction false} KeptLinesClean(lines: seq<string>, k: nat)
    requires k < |KeptLines(lines)|
    ensures !IsBlank(KeptLines(lines)[k]) && Trim(KeptLines(lines)[k]) == KeptLines(lines)[k]
    decreases |lines|
  {
    var init := lines[..|lines| - 1];
    KeptLinesSnoc(lines);
    if k < |KeptLines(init)| {
      KeptLinesClean(init, k);
    } else {
      TrimIdempotent(lines[|lines| - 1]);
    }
  }

  /** Every kept line is the trimmed form of some input line. */
  lemma {:induction false} KeptLinesSound(lines: seq<string>, o: string)
    requires o in KeptLines(lines)
    ensures exists i :: 0 <= i < |lines| && Trim(lines[i]) == o
    decreases |lines|
  {
    var init := lines[..|lines| - 1];
    var t := Trim(lines[|lines| - 1]);
    assert KeptLines(lines) == KeptLines(init) + (if IsBlank(t) then [] else [t]);
    if o in KeptLines(init) {
      KeptLinesSound(init, o);
      var i :| 0 <= i < |init| && Trim(init[i]) == o;
      assert lines[i] == init[i];
    } else {
      assert Trim(lines[|lines| - 1]) == o;
    }
  }

  /** Every input line that is not blank once trimmed is kept, trimmed. */
  lemma {:induction false} KeptLinesComplete(lines: seq<string>, i: nat)
    requires i < |lines| && !IsBlank(Trim(lines[i]))
    ensures Trim(lines[i]) in KeptLines(lines)
    decreases |lines|
  {
    var init := lines[..|lines| - 1];
    var t := Trim(lines[i]);
    var kept := KeptLines(lines);
    if i < |init| {
      assert lines[i] == init[i];
      KeptLinesComplete(init, i);
      var before := KeptLines(init);
      var j :| 0 <= j < |before| && before[j] == t;
      KeptLinesExtends(lines);
      assert kept[j] == t;
    } else {
      assert i == |lines| - 1;
      KeptLinesSnoc(lines);
      assert kept == KeptLines(init) + [t];
    }
  }

  /** One unfolding of KeptLines at the last input line. */
  lemma KeptLinesSnoc(lines: seq<string>)
    requires lines != []
    ensures var t := Trim(lines[|lines| - 1]);
            KeptLines(lines) == KeptLines(lines[..|lines| - 1]) + (if IsBlank(t) then [] else [t])
  {
  }

  /** Reading one more line of a log extends the kept lines by that line, unless it is blank. */
  lemma KeptLinesStep(lines: seq<string>, i: nat)
    requires i < |lines|
    ensures var t := Trim(lines[i]);
            KeptLines(lines[..i + 1]) == KeptLines(lines[..i]) + (if IsBlank(t) then [] else [t])
  {
    var prefix := lines[..i + 1];
    assert prefix[..i] == lines[..i];
    KeptLinesSnoc(prefix);
  }

  /** Dropping the last input line keeps a prefix of the output. */
  lemma KeptLinesExtends(lines: seq<string>)
    requires lines != []
    ensures KeptLines(lines)[..|KeptLines(lines[..|lines| - 1])|] == KeptLines(lines[..|lines| - 1])
  {
  }

  /** A single line comes out trimmed, unless PHP's empty() holds for it once trimmed. */
  lemma KeptLinesOne(line: string)
    ensures KeptLines([line]) == if IsBlank(Trim(line)) then [] else [Trim(line)]
  {
    KeptLinesSnoc([line]);
    assert [line][..0] == [];
  }

  /** The filter works line by line and in order: lines keep their order and duplicates are kept. */
  lemma {:induction false} KeptLinesConcat(a: seq<string>, b: seq<string>)
    ensures KeptLines(a + b) == KeptLines(a) + KeptLines(b)
    decreases |b|
  {
    if b == [] {
      assert a + b == a;
    } else {
      var ab := a + b;
      var init := b[..|b| - 1];
      var t := Trim(b[|b| - 1]);
      var last := if IsBlank(t) then [] else [t];
      assert ab[..|ab| - 1] == a + init;
      assert ab[|ab| - 1] == b[|b| - 1];
      calc {
        KeptLines(ab);
        { KeptLinesSnoc(ab); }
        KeptLines(a + init) + last;
        { KeptLinesConcat(a, init); }
        KeptLines(a) + KeptLines(init) + last;
        KeptLines(a) + (KeptLines(init) + last);
        { KeptLinesSnoc(b); }
        KeptLines(a) + KeptLines(b);
      }
    }
  }
}
