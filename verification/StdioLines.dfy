/**
 Newline framing of the MCP stdio transport (revision 2024-11-05): messages are
 separated by newlines, but the pipe delivers characters in chunks of any size.
 */
module StdioLines {
  import opened Common

  predicate NoNewline(s: string) {
    '\n' !in s
  }

  /** One more character: a newline starts a new piece, anything else joins the last. */
  function Extend(pieces: seq<string>, c: char): (r: seq<string>)
    requires pieces != []
    ensures r != []
  {
    if c == '\n' then pieces + [[]] else Init(pieces) + [Last(pieces) + [c]]
  }

  /** Splitting at every newline; the last piece is what no newline has ended yet. */
  function Split(s: string): (pieces: seq<string>)
    ensures |pieces| >= 1
  {
    if s == [] then [[]] else Extend(Split(Init(s)), Last(s))
  }

  ghost function Join(pieces: seq<string>): string
    requires pieces != []
  {
    if |pieces| == 1 then pieces[0] else Join(Init(pieces)) + "\n" + Last(pieces)
  }

  function Lines(stream: string): seq<string> {
    Init(Split(stream))
  }

  function Tail(stream: string): string {
    Last(Split(stream))
  }

  ghost predicate AllPlain(pieces: seq<string>) {
    forall i :: 0 <= i < |pieces| ==> NoNewline(pieces[i])
  }

  lemma SplitSnoc(s: string, c: char)
    ensures Split(s + [c]) == Extend(Split(s), c)
  {
    assert Init(s + [c]) == s;
  }

  lemma JoinExtend(pieces: seq<string>, c: char)
    requires pieces != []
    ensures Join(Extend(pieces, c)) == Join(pieces) + [c]
  {
    var r := Extend(pieces, c);
    if c == '\n' {
      assert Init(r) == pieces;
    } else {
      assert Init(r) == Init(pieces);
    }
  }

  /** Splitting and joining are inverse, in both directions. */
  lemma {:induction false} JoinSplit(s: string)
    ensures Join(Split(s)) == s && AllPlain(Split(s))
  {
    if s != [] {
      JoinSplit(Init(s));
      JoinExtend(Split(Init(s)), Last(s));
    }
  }

  lemma {:induction false} SplitJoin(pieces: seq<string>)
    requires pieces != [] && AllPlain(pieces)
    ensures Split(Join(pieces)) == pieces
    decreases |pieces|, if pieces == [] then 0 else |Last(pieces)|
  {
    var p := Last(pieces);
    if p != [] {
      var shorter := Init(pieces) + [Init(p)];
      assert Last(p) in p && Init(p) + [Last(p)] == p;
      SplitJoin(shorter);
      JoinExtend(shorter, Last(p));
      assert Init(shorter) == Init(pieces);
      InitLast(pieces);
      assert Extend(shorter, Last(p)) == pieces;
      SplitSnoc(Join(shorter), Last(p));
    } else if |pieces| > 1 {
      SplitJoin(Init(pieces));
      SplitSnoc(Join(Init(pieces)), '\n');
      assert Join(pieces) == Join(Init(pieces)) + ['\n'];
    } else {
      assert pieces == [[]];
    }
  }

  lemma SplitPlain(s: string)
    requires NoNewline(s)
    ensures Split(s) == [s]
  {
    SplitJoin([s]);
  }

  lemma TailHasNoNewline(s: string)
    ensures NoNewline(Tail(s))
  {
    JoinSplit(s);
  }

  lemma ExtendConcat(a: seq<string>, b: seq<string>, c: char)
    requires b != []
    ensures Extend(a + b, c) == a + Extend(b, c)
  {
    assert Init(a + b) == a + Init(b);
  }

  /** Only the unfinished piece meets the next characters. */
  lemma {:induction false} SplitAppend(a: string, b: string)
    ensures Split(a + b) == Lines(a) + Split(Tail(a) + b)
  {
    if b == [] {
      TailHasNoNewline(a);
      SplitPlain(Tail(a));
      assert a + b == a && Tail(a) + b == Tail(a);
    } else {
      var b', c := Init(b), Last(b);
      SplitAppend(a, b');
      assert a + b == (a + b') + [c] && Tail(a) + b == (Tail(a) + b') + [c];
      SplitSnoc(a + b', c);
      SplitSnoc(Tail(a) + b', c);
      ExtendConcat(Lines(a), Split(Tail(a) + b'), c);
    }
  }

  // ---------------------------------------------------------------------------
  // Blank lines
  // ---------------------------------------------------------------------------

  /** The white space and line terminators that trimming removes. */
  predicate IsSpace(c: char) {
    || '\t' <= c <= '\r'
    || c in " \U{00A0}\U{1680}\U{2028}\U{2029}\U{202F}\U{205F}\U{3000}\U{FEFF}"
    || '\U{2000}' <= c <= '\U{200A}'
  }

  predicate Blank(line: string) {
    forall i :: 0 <= i < |line| ==> IsSpace(line[i])
  }

  /** The text without white space at its beginning. */
  ghost function TrimStart(s: string): string {
    if s != [] && IsSpace(s[0]) then TrimStart(s[1..]) else s
  }

  ghost function TrimEnd(s: string): string {
    if s != [] && IsSpace(Last(s)) then TrimEnd(Init(s)) else s
  }

  ghost function Trim(s: string): string {
    TrimEnd(TrimStart(s))
  }

  lemma {:induction false} TrimStartEmpties(s: string)
    ensures TrimStart(s) == [] <==> Blank(s)
    ensures TrimStart(s) != [] ==> !IsSpace(TrimStart(s)[0])
  {
    if s != [] && IsSpace(s[0]) {
      TrimStartEmpties(s[1..]);
      forall i | 0 < i < |s|
        ensures s[i] == s[1..][i - 1]
      {
      }
    }
  }

  lemma {:induction false} TrimEndKeepsFirst(s: string)
    requires s != [] && !IsSpace(s[0])
    ensures TrimEnd(s) != []
  {
    if IsSpace(Last(s)) {
      TrimEndKeepsFirst(Init(s));
    }
  }

  /** A line is blank exactly when trimming leaves nothing of it. */
  lemma BlankIsTrimmed(s: string)
    ensures Blank(s) <==> Trim(s) == []
  {
    TrimStartEmpties(s);
    if TrimStart(s) != [] {
      TrimEndKeepsFirst(TrimStart(s));
    }
  }

  ghost function NonBlank(lines: seq<string>): seq<string> {
    if lines == [] then []
    else NonBlank(Init(lines)) + (if Blank(Last(lines)) then [] else [Last(lines)])
  }

  lemma {:induction false} NonBlankConcat(a: seq<string>, b: seq<string>)
    ensures NonBlank(a + b) == NonBlank(a) + NonBlank(b)
  {
    if b == [] {
      assert a + b == a;
    } else {
      NonBlankConcat(a, Init(b));
      assert Init(a + b) == a + Init(b) && Last(a + b) == Last(b);
    }
  }
}
