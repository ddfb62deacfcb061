/** The diff summariser: counts the added and deleted lines of a unified diff and fingerprints the
    effective added ones.  It is a line-driven parser with two modes, and the theorems say that the modes
    never confuse a hunk body with a header, whatever the lines contain. */
module AcceptedLines {
  import opened Options

  datatype Fingerprint = Fingerprint(pathHash: string, lineHash: string)

  datatype Summary = Summary(added: nat, deleted: nat, fingerprints: seq<Fingerprint>)

  /** Foreign calls: the Unicode table of alphanumeric characters and the SHA-1 fingerprint. */
  datatype Env = Env(alphanumeric: char -> bool, hash: (string, string) -> string)

  // ---------------------------------------------------------------------------------------------
  // Text
  // ---------------------------------------------------------------------------------------------

  /** The White_Space property of Unicode. */
  predicate IsWhitespace(c: char) {
    var n := c as int;
    || 9 <= n <= 13 || n == 0x20 || n == 0x85 || n == 0xA0 || n == 0x1680 || 0x2000 <= n <= 0x200A
    || n == 0x2028 || n == 0x2029 || n == 0x202F || n == 0x205F || n == 0x3000
  }

  function Utf8Len(s: string): nat {
    if s == [] then 0
    else
      var n := s[0] as int;
      (if n < 0x80 then 1 else if n < 0x800 then 2 else if n < 0x1_0000 then 3 else 4) + Utf8Len(s[1..])
  }

  function TrimEnd(s: string): string {
    if s != [] && IsWhitespace(s[|s| - 1]) then TrimEnd(s[..|s| - 1]) else s
  }

  function TrimStart(s: string): string {
    if s != [] && IsWhitespace(s[0]) then TrimStart(s[1..]) else s
  }

  /** The finished words of a text and the word still open at its end. */
  function SplitWords(s: string): (seq<string>, string) {
    if s == [] then ([], [])
    else
      var (words, open) := SplitWords(s[..|s| - 1]);
      var c := s[|s| - 1];
      if !IsWhitespace(c) then (words, open + [c])
      else if open == [] then (words, [])
      else (words + [open], [])
  }

  function Words(s: string): seq<string> {
    var (words, open) := SplitWords(s);
    if open == [] then words else words + [open]
  }

  function JoinWords(words: seq<string>): string {
    if words == [] then []
    else if |words| == 1 then words[0]
    else JoinWords(words[..|words| - 1]) + " " + words[|words| - 1]
  }

  function NormalizeDiffPath(path: string): Option<string> {
    var p := TrimStart(TrimEnd(path));
    if p == "/dev/null" then None
    else if "b/" <= p then Some(p[2..])
    else if "a/" <= p then Some(p[2..])
    else Some(p)
  }

  function NormalizeEffectiveLine(env: Env, line: string): Option<string> {
    var n := JoinWords(Words(line));
    if Utf8Len(n) <= 3 then None
    else if !exists i :: 0 <= i < |n| && (env.alphanumeric(n[i]) || n[i] == '_') then None
    else Some(n)
  }

  function StripCr(line: string): string {
    if line != [] && line[|line| - 1] == '\r' then line[..|line| - 1] else line
  }

  function NewlineAt(text: string): (n: nat)
    ensures n <= |text| && (n < |text| ==> text[n] == '\n') && forall i :: 0 <= i < n ==> text[i] != '\n'
  {
    if text == [] || text[0] == '\n' then 0 else 1 + NewlineAt(text[1..])
  }

  /** The lines of a text, as Rust's str::lines gives them. */
  function Lines(text: string): seq<string> {
    if text == [] then []
    else
      var n := NewlineAt(text);
      if n == |text| then [text] else [StripCr(text[..n])] + Lines(text[n + 1..])
  }

  // ---------------------------------------------------------------------------------------------
  // What is fingerprinted
  // ---------------------------------------------------------------------------------------------

  /** The White_Space characters of Unicode, one by one. */
  lemma WhitespaceExactly(c: char)
    ensures IsWhitespace(c) <==>
      c as int in {9, 10, 11, 12, 13, 0x20, 0x85, 0xA0, 0x1680, 0x2000, 0x2001, 0x2002, 0x2003, 0x2004, 0x2005, 0x2006,
                   0x2007, 0x2008, 0x2009, 0x200A, 0x2028, 0x2029, 0x202F, 0x205F, 0x3000}
  {
  }

  /** Lengths add up over the characters, whose lengths are those of section 3 of RFC 3629. */
  lemma {:induction false} Utf8LenExactly(s: string, c: char)
    ensures Utf8Len(s + [c]) == Utf8Len(s) +
      (if c as int <= 0x7F then 1 else if c as int <= 0x7FF then 2 else if c as int <= 0xFFFF then 3 else 4)
    ensures Utf8Len([]) == 0
  {
    if s == [] {
      assert s + [c] == [c] && [c][1..] == [];
    } else {
      Utf8LenExactly(s[1..], c);
      assert (s + [c])[1..] == s[1..] + [c];
    }
  }

  /** A visible character and whether whitespace parts it from the one before. */
  datatype Mark = Mark(c: char, gap: bool)

  /** The visible characters of a text and the gaps between them. */
  function Ink(s: string): seq<Mark> {
    if s == [] then []
    else
      var before, c := s[..|s| - 1], s[|s| - 1];
      if IsWhitespace(c) then Ink(before)
      else Ink(before) + [Mark(c, Ink(before) != [] && before != [] && IsWhitespace(before[|before| - 1]))]
  }

  /** No whitespace at the ends, and single spaces in between. */
  predicate Tight(s: string) {
    && (s != [] ==> !IsWhitespace(s[0]) && !IsWhitespace(s[|s| - 1]))
    && (forall i :: 0 < i < |s| && IsWhitespace(s[i]) ==> s[i] == ' ' && !IsWhitespace(s[i - 1]))
  }

  lemma InkAppend(s: string, c: char)
    ensures Ink(s + [c]) ==
      if IsWhitespace(c) then Ink(s) else Ink(s) + [Mark(c, Ink(s) != [] && s != [] && IsWhitespace(s[|s| - 1]))]
  {
    assert (s + [c])[..|s|] == s;
  }

  lemma TightPrefix(s: string, n: nat)
    requires Tight(s) && n <= |s| && (n > 0 ==> !IsWhitespace(s[n - 1]))
    ensures Tight(s[..n])
  {
    hide IsWhitespace;
  }

  lemma InkOfOne(c: char)
    requires !IsWhitespace(c)
    ensures Ink([c]) == [Mark(c, false)] && Tight([c])
  {
    hide IsWhitespace;
  }

  /** The last character of a tight text, and whether a space parts it from the rest. */
  function Tail(c: char, gap: bool): string {
    (if gap then " " else "") + [c]
  }

  /** A tight text is a tight text, perhaps a space, and a visible character. */
  lemma Peel(s: string) returns (front: string, c: char, gap: bool)
    requires Tight(s) && s != []
    ensures s == front + Tail(c, gap) && Tight(front) && |front| < |s|
    ensures Ink(s) == Ink(front) + [Mark(c, gap)]
  {
    hide IsWhitespace, Ink;
    var n := |s| - 1;
    c, gap := s[n], n > 0 && IsWhitespace(s[n - 1]);
    front := s[..if gap then n - 1 else n];
    TightPrefix(s, |front|);
    if gap {
      assert s == front + " " + [c];
      assert front + " " + [c] == front + Tail(c, gap);
      ExtendBySpace(front, c);
    } else if front == [] {
      assert s == [c] && s == front + Tail(c, gap);
      InkOfNothing();
      InkOfOne(c);
    } else {
      assert s == front + [c] && s == front + Tail(c, gap);
      ExtendByChar(front, c);
    }
  }

  lemma InkNotEmpty(s: string)
    requires s != [] && !IsWhitespace(s[|s| - 1])
    ensures Ink(s) != []
  {
  }

  /** Two tight texts with the same visible characters and gaps are the same. */
  lemma {:induction false} TightUnique(a: string, b: string)
    requires Tight(a) && Tight(b) && Ink(a) == Ink(b)
    ensures a == b
    decreases |a|
  {
    if a == [] {
      if b != [] {
        InkNotEmpty(b);
      }
    } else if b == [] {
      InkNotEmpty(a);
    } else {
      hide Ink, Tight, IsWhitespace, Tail;
      var f, c, gap := Peel(a);
      var g, d, hap := Peel(b);
      LastMarks(Ink(f), Mark(c, gap), Ink(g), Mark(d, hap));
      TightUnique(f, g);
    }
  }

  lemma LastMarks(a: seq<Mark>, x: Mark, b: seq<Mark>, y: Mark)
    requires a + [x] == b + [y]
    ensures a == b && x == y
  {
    assert |a| == |b| && (a + [x])[|a|] == x && (b + [y])[|b|] == y;
    assert a == (a + [x])[..|a|] && b == (b + [y])[..|b|];
  }

  lemma JoinAppend(words: seq<string>, w: string)
    ensures JoinWords(words + [w]) == if words == [] then w else JoinWords(words) + " " + w
  {
    assert (words + [w])[..|words|] == words;
  }

  /** Words joined by single spaces: tight, and with the visible characters and gaps of the text. */
  ghost predicate Rejoined(s: string) {
    var (words, open) := SplitWords(s);
    var text := JoinWords(Words(s));
    && Tight(text) && Ink(text) == Ink(s)
    && (text == [] <==> Words(s) == [])
    && (open == [] ==> s == [] || IsWhitespace(s[|s| - 1]))
    && (open != [] ==> s != [] && !IsWhitespace(s[|s| - 1]))
  }

  lemma {:induction false} RejoinedAlways(s: string)
    ensures Rejoined(s)
  {
    if s == [] {
      assert SplitWords(s) == ([], []);
    } else {
      hide Rejoined;
      var before, c := s[..|s| - 1], s[|s| - 1];
      RejoinedAlways(before);
      assert s == before + [c];
      RejoinedOneMore(before, c);
    }
  }

  lemma SplitAppend(s: string, c: char)
    ensures var (words, open) := SplitWords(s);
      SplitWords(s + [c]) ==
        if !IsWhitespace(c) then (words, open + [c])
        else if open == [] then (words, [])
        else (words + [open], [])
  {
    assert (s + [c])[..|s|] == s;
  }

  lemma RejoinedOneMore(s: string, c: char)
    requires Rejoined(s)
    ensures Rejoined(s + [c])
  {
    SplitAppend(s, c);
    InkAppend(s, c);
    hide SplitWords, Ink, Tight, IsWhitespace, JoinWords;
    var (words, open) := SplitWords(s);
    if IsWhitespace(c) {
      assert Words(s + [c]) == Words(s);
    } else if open == [] {
      assert open + [c] == [c];
      assert Words(s + [c]) == words + [[c]] && Words(s) == words;
      NewWord(words, s, c);
    } else {
      assert Words(s + [c]) == words + [open + [c]] && Words(s) == words + [open];
      LongerWord(words, open, c);
    }
  }

  lemma NewWord(words: seq<string>, s: string, c: char)
    requires !IsWhitespace(c) && Tight(JoinWords(words)) && Ink(JoinWords(words)) == Ink(s)
    requires JoinWords(words) == [] <==> words == []
    requires s == [] || IsWhitespace(s[|s| - 1])
    ensures var text := JoinWords(words + [[c]]);
      && text != [] && Tight(text)
      && Ink(text) == Ink(s) + [Mark(c, Ink(s) != [] && s != [] && IsWhitespace(s[|s| - 1]))]
  {
    JoinAppend(words, [c]);
    if words == [] {
      assert Ink([c]) == [Mark(c, false)] && Tight([c]);
    } else {
      hide IsWhitespace;
      ExtendBySpace(JoinWords(words), c);
      InkNotEmpty(JoinWords(words));
      InkOfNothing();
    }
  }

  lemma InkOfNothing()
    ensures Ink([]) == []
  {
  }

  lemma LongerWord(words: seq<string>, open: string, c: char)
    requires !IsWhitespace(c) && open != [] && Tight(JoinWords(words + [open])) && JoinWords(words + [open]) != []
    ensures var text := JoinWords(words + [open + [c]]);
      text != [] && Tight(text) && Ink(text) == Ink(JoinWords(words + [open])) + [Mark(c, false)]
  {
    JoinAppend(words, open);
    JoinAppend(words, open + [c]);
    hide IsWhitespace;
    assert JoinWords(words + [open + [c]]) == JoinWords(words + [open]) + [c];
    ExtendByChar(JoinWords(words + [open]), c);
  }

  lemma ExtendByChar(text: string, c: char)
    requires Tight(text) && text != [] && !IsWhitespace(c)
    ensures Tight(text + [c]) && Ink(text + [c]) == Ink(text) + [Mark(c, false)]
  {
    InkAppend(text, c);
  }

  lemma ExtendBySpace(text: string, c: char)
    requires Tight(text) && text != [] && !IsWhitespace(c)
    ensures Tight(text + " " + [c]) && Ink(text + " " + [c]) == Ink(text) + [Mark(c, true)]
  {
    assert IsWhitespace(' ');
    hide IsWhitespace;
    InkNotEmpty(text);
    InkAppend(text, ' ');
    InkAppend(text + " ", c);
  }

  predicate HasLetter(env: Env, s: string) {
    exists i :: 0 <= i < |s| && (env.alphanumeric(s[i]) || s[i] == '_')
  }

  /** An added line is effective exactly if, with its whitespace squeezed to single spaces and none at the ends, it has
      more than three bytes and a letter, digit or underscore; that text is what is fingerprinted. */
  lemma NormalizeExactly(env: Env, line: string, n: string)
    ensures NormalizeEffectiveLine(env, line) == Some(n) <==>
      Tight(n) && Ink(n) == Ink(line) && Utf8Len(n) > 3 && HasLetter(env, n)
  {
    RejoinedAlways(line);
    hide SplitWords, Ink, Tight, Utf8Len;
    var text := JoinWords(Words(line));
    if Tight(n) && Ink(n) == Ink(line) {
      TightUnique(n, text);
    }
  }

  lemma {:induction false} TrimmedBefore(a: string, t: string)
    requires (forall i :: 0 <= i < |a| ==> IsWhitespace(a[i])) && (t != [] ==> !IsWhitespace(t[0]))
    ensures TrimStart(a + t) == t
    decreases |a|
  {
    if a == [] {
      assert a + t == t;
    } else {
      TrimmedBefore(a[1..], t);
      assert (a + t)[1..] == a[1..] + t;
    }
  }

  lemma {:induction false} TrimmedAfter(t: string, b: string)
    requires (forall i :: 0 <= i < |b| ==> IsWhitespace(b[i])) && (t != [] ==> !IsWhitespace(t[|t| - 1]))
    ensures TrimEnd(t + b) == t
    decreases |b|
  {
    if b == [] {
      assert t + b == t;
    } else {
      TrimmedAfter(t, b[..|b| - 1]);
      assert (t + b)[..|t + b| - 1] == t + b[..|b| - 1];
    }
  }

  /** A path inside any whitespace: no path for /dev/null, otherwise the path without its a/ or b/. */
  lemma PathExactly(a: string, path: string, b: string)
    requires path != [] && !IsWhitespace(path[0]) && !IsWhitespace(path[|path| - 1])
    requires (forall i :: 0 <= i < |a| ==> IsWhitespace(a[i])) && (forall i :: 0 <= i < |b| ==> IsWhitespace(b[i]))
    ensures NormalizeDiffPath(a + path + b) ==
      if path == "/dev/null" then None
      else if |path| >= 2 && (path[0] == 'a' || path[0] == 'b') && path[1] == '/' then Some(path[2..])
      else Some(path)
  {
    TrimmedAfter(a + path, b);
    TrimmedBefore(a, path);
    hide IsWhitespace, TrimStart, TrimEnd;
    assert "b/" <= path <==> |path| >= 2 && path[0] == 'b' && path[1] == '/';
    assert "a/" <= path <==> |path| >= 2 && path[0] == 'a' && path[1] == '/';
  }

  // ---------------------------------------------------------------------------------------------
  // The parser
  // ---------------------------------------------------------------------------------------------

  datatype Scan = Scan(path: Option<string>, inHunk: bool, summary: Summary)

  const START: Scan := Scan(None, false, Summary(0, 0, []))

  function Effective(env: Env, path: Option<string>, line: string): seq<Fingerprint> {
    var n := NormalizeEffectiveLine(env, line);
    if path.Some? && n.Some? then [Fingerprint(env.hash("path", path.value), env.hash("line", n.value))] else []
  }

  /** A line of a file with a path gives one fingerprint, of that path and its squeezed text, if it is effective. */
  lemma EffectiveExactly(env: Env, path: Option<string>, line: string, n: string)
    requires Tight(n) && Ink(n) == Ink(line)
    ensures Effective(env, path, line) ==
      if path.Some? && Utf8Len(n) > 3 && HasLetter(env, n) then
        [Fingerprint(env.hash("path", path.value), env.hash("line", n))]
      else []
  {
    NormalizeExactly(env, line, n);
    var m := NormalizeEffectiveLine(env, line);
    if m.Some? {
      NormalizeExactly(env, line, m.value);
      hide NormalizeEffectiveLine, Ink, Tight, Utf8Len, HasLetter;
      TightUnique(n, m.value);
    }
  }

  function Add(env: Env, s: Scan, line: string): Scan {
    s.(summary := s.summary.(added := s.summary.added + 1,
                             fingerprints := s.summary.fingerprints + Effective(env, s.path, line)))
  }

  function Delete(s: Scan): Scan {
    s.(summary := s.summary.(deleted := s.summary.deleted + 1))
  }

  /** What a line looks like, whatever the mode. */
  datatype Look = GitLine | AtLine | NewNameLine | OldNameLine | PlusLine | MinusLine | PlainLine

  function LookOf(line: string): Look {
    if "diff --git " <= line then GitLine
    else if "@@ " <= line then AtLine
    else if "+++ " <= line then NewNameLine
    else if "--- " <= line then OldNameLine
    else if "+" <= line then PlusLine
    else if "-" <= line then MinusLine
    else PlainLine
  }

  function ScanLine(env: Env, s: Scan, line: string): Scan {
    match LookOf(line)
    case GitLine => s.(path := None, inHunk := false)
    case AtLine => s.(inHunk := true)
    case NewNameLine => if s.inHunk then Add(env, s, line[1..]) else s.(path := NormalizeDiffPath(line[4..]))
    case OldNameLine => if s.inHunk then Delete(s) else s
    case PlusLine => Add(env, s, line[1..])
    case MinusLine => Delete(s)
    case PlainLine => s
  }

  function ScanLines(env: Env, s: Scan, lines: seq<string>): Scan
    decreases |lines|
  {
    if lines == [] then s else ScanLines(env, ScanLine(env, s, lines[0]), lines[1..])
  }

  function Summarize(env: Env, diff: string): Summary {
    ScanLines(env, START, Lines(diff)).summary
  }

  lemma {:induction false} ScanConcat(env: Env, s: Scan, a: seq<string>, b: seq<string>)
    ensures ScanLines(env, s, a + b) == ScanLines(env, ScanLines(env, s, a), b)
    decreases |a|
  {
    hide ScanLine;
    if a == [] {
      assert a + b == b;
    } else {
      ScanConcat(env, ScanLine(env, s, a[0]), a[1..], b);
      assert (a + b)[1..] == a[1..] + b;
    }
  }

  lemma ScanNext(env: Env, s: Scan, lines: seq<string>, i: nat)
    requires i < |lines|
    ensures ScanLines(env, s, lines[..i + 1]) == ScanLine(env, ScanLines(env, s, lines[..i]), lines[i])
  {
    assert lines[..i + 1] == lines[..i] + [lines[i]];
    ScanConcat(env, s, lines[..i], [lines[i]]);
  }

  /** The conditions of the source, in its order. */
  method AcceptLine(env: Env, scan: Scan, line: string) returns (next: Scan)
    ensures next == ScanLine(env, scan, line)
  {
    next := scan;
    if "diff --git " <= line {
      return next.(path := None, inHunk := false);
    }
    if "@@ " <= line {
      return next.(inHunk := true);
    }
    if !next.inHunk && "+++ " <= line {
      return next.(path := NormalizeDiffPath(line[4..]));
    }
    if !next.inHunk && "--- " <= line {
      return next;
    }
    if "+" <= line {
      next := next.(summary := next.summary.(added := next.summary.added + 1));
      var normalized := NormalizeEffectiveLine(env, line[1..]);
      if next.path.Some? && normalized.Some? {
        var fingerprint := Fingerprint(env.hash("path", next.path.value), env.hash("line", normalized.value));
        next := next.(summary := next.summary.(fingerprints := next.summary.fingerprints + [fingerprint]));
      }
      assert line[0] == '+' && scan.summary.fingerprints + [] == scan.summary.fingerprints;
      return next;
    }
    if "-" <= line {
      assert line[0] == '-';
      next := next.(summary := next.summary.(deleted := next.summary.deleted + 1));
    }
  }

  method AcceptedLineFingerprints(env: Env, unifiedDiff: string) returns (summary: Summary)
    ensures summary == Summarize(env, unifiedDiff)
  {
    var scan := START;
    var lines := Lines(unifiedDiff);
    for i := 0 to |lines|
      invariant scan == ScanLines(env, START, lines[..i])
    {
      ScanNext(env, START, lines, i);
      scan := AcceptLine(env, scan, lines[i]);
    }
    assert lines[..|lines|] == lines;
    summary := scan.summary;
  }

  /** The counts of a diff, which do not depend on the foreign calls. */
  function Counts(diff: string): (nat, nat) {
    var summary := Summarize(Env(_ => false, (_, _) => ""), diff);
    (summary.added, summary.deleted)
  }

  ghost predicate SameCounts(s: Scan, t: Scan) {
    s.path == t.path && s.inHunk == t.inHunk &&
    s.summary.added == t.summary.added && s.summary.deleted == t.summary.deleted
  }

  lemma {:induction false} ScanSameCounts(env: Env, env': Env, s: Scan, t: Scan, lines: seq<string>)
    requires SameCounts(s, t)
    ensures SameCounts(ScanLines(env, s, lines), ScanLines(env', t, lines))
    decreases |lines|
  {
    if lines != [] {
      ScanSameCounts(env, env', ScanLine(env, s, lines[0]), ScanLine(env', t, lines[0]), lines[1..]);
    }
  }

  lemma CountsOfSummary(env: Env, diff: string)
    ensures Counts(diff) == (Summarize(env, diff).added, Summarize(env, diff).deleted)
  {
    ScanSameCounts(env, Env(_ => false, (_, _) => ""), START, START, Lines(diff));
  }

  // ---------------------------------------------------------------------------------------------
  // Concatenation
  // ---------------------------------------------------------------------------------------------

  function Plus(a: Summary, b: Summary): Summary {
    Summary(a.added + b.added, a.deleted + b.deleted, a.fingerprints + b.fingerprints)
  }

  lemma LineOffset(env: Env, before: Summary, s: Scan, line: string)
    ensures ScanLine(env, s.(summary := Plus(before, s.summary)), line) ==
      var t := ScanLine(env, s, line); t.(summary := Plus(before, t.summary))
  {
    var more := Effective(env, s.path, if line == [] then [] else line[1..]);
    assert (before.fingerprints + s.summary.fingerprints) + more ==
      before.fingerprints + (s.summary.fingerprints + more);
  }

  /** What was counted before does not influence what is counted next. */
  lemma {:induction false} ScanOffset(env: Env, before: Summary, s: Scan, lines: seq<string>)
    ensures ScanLines(env, s.(summary := Plus(before, s.summary)), lines) ==
      var t := ScanLines(env, s, lines); t.(summary := Plus(before, t.summary))
    decreases |lines|
  {
    if lines != [] {
      var next := ScanLine(env, s, lines[0]);
      LineOffset(env, before, s, lines[0]);
      ScanOffset(env, before, next, lines[1..]);
    }
  }

  /** A `diff --git ` line starts afresh. */
  lemma ScanFresh(env: Env, s: Scan, lines: seq<string>)
    requires lines != [] && LookOf(lines[0]) == GitLine
    ensures ScanLines(env, s, lines).summary == Plus(s.summary, ScanLines(env, START, lines).summary)
  {
    var reset := START.(path := None, inHunk := false);
    ScanOffset(env, s.summary, reset, lines[1..]);
    assert ScanLine(env, s, lines[0]) == reset.(summary := Plus(s.summary, reset.summary));
  }

  lemma {:induction false} LinesConcat(a: string, b: string)
    requires a == "" || a[|a| - 1] == '\n'
    ensures Lines(a + b) == Lines(a) + Lines(b)
    decreases |a|
  {
    if a == "" {
      assert a + b == b;
    } else {
      var n := NewlineAt(a);
      assert a[|a| - 1] == '\n' && n < |a|;
      hide Lines, StripCr, NewlineAt;
      FirstLineOf(a, n);
      FirstLineOfConcat(a, b, n);
      var rest := a[n + 1..];
      assert rest == "" || rest[|rest| - 1] == a[|a| - 1];
      LinesConcat(rest, b);
      Regroup(StripCr(a[..n]), Lines(rest), Lines(b));
    }
  }

  lemma NewlineIsFirst(text: string, n: nat)
    requires n < |text| && text[n] == '\n' && forall i :: 0 <= i < n ==> text[i] != '\n'
    ensures NewlineAt(text) == n
  {
  }

  lemma FirstLineOf(text: string, n: nat)
    requires n < |text| && text[n] == '\n' && forall i :: 0 <= i < n ==> text[i] != '\n'
    ensures Lines(text) == [StripCr(text[..n])] + Lines(text[n + 1..])
  {
    NewlineIsFirst(text, n);
  }

  lemma Regroup(first: string, a: seq<string>, b: seq<string>)
    ensures [first] + (a + b) == ([first] + a) + b
  {
  }

  lemma FirstLineOfConcat(a: string, b: string, n: nat)
    requires n < |a| && a[n] == '\n' && forall i :: 0 <= i < n ==> a[i] != '\n'
    ensures Lines(a + b) == [StripCr(a[..n])] + Lines(a[n + 1..] + b)
  {
    hide Lines, StripCr, NewlineAt;
    FirstLineOf(a + b, n);
    assert (a + b)[..n] == a[..n] && (a + b)[n + 1..] == a[n + 1..] + b;
  }

  lemma FirstLine(text: string)
    requires "diff --git " <= text
    ensures Lines(text) != [] && LookOf(Lines(text)[0]) == GitLine
  {
    var prefix, n := "diff --git ", NewlineAt(text);
    assert forall i :: 0 <= i < |prefix| ==> text[i] == prefix[i];
    assert n >= |prefix|;
    assert prefix <= StripCr(text[..n]);
  }

  /** The summary of a diff is the sum over its parts, wherever a part ends a line and the next begins a file. */
  lemma SummaryAdds(env: Env, d1: string, d2: string)
    requires d1 == "" || d1[|d1| - 1] == '\n'
    requires "diff --git " <= d2
    ensures Summarize(env, d1 + d2) == Plus(Summarize(env, d1), Summarize(env, d2))
  {
    LinesConcat(d1, d2);
    ScanConcat(env, START, Lines(d1), Lines(d2));
    FirstLine(d2);
    ScanFresh(env, ScanLines(env, START, Lines(d1)), Lines(d2));
  }

  // ---------------------------------------------------------------------------------------------
  // Printed diffs
  // ---------------------------------------------------------------------------------------------

  datatype BodyLine = Added(text: string) | Deleted(text: string) | Context(text: string) | NoNewlineAtEnd

  datatype Hunk = Hunk(range: string, body: seq<BodyLine>)

  /** The extended header lines git writes between `diff --git` and the file names. */
  datatype Header =
    | OldMode(text: string) | NewMode(text: string) | DeletedFileMode(text: string) | NewFileMode(text: string)
    | CopyFrom(text: string) | CopyTo(text: string) | RenameFrom(text: string) | RenameTo(text: string)
    | SimilarityIndex(text: string) | DissimilarityIndex(text: string) | Index(text: string) | BinaryFiles(text: string)

  datatype Content = Content(oldName: string, newName: string, hunks: seq<Hunk>)

  datatype FileDiff = FileDiff(names: string, headers: seq<Header>, content: Option<Content>)

  function PrintBodyLine(l: BodyLine): string {
    match l
    case Added(t) => "+" + t
    case Deleted(t) => "-" + t
    case Context(t) => " " + t
    case NoNewlineAtEnd => "\\ No newline at end of file"
  }

  function PrintHeader(h: Header): string {
    (match h
     case OldMode(_) => "old mode "
     case NewMode(_) => "new mode "
     case DeletedFileMode(_) => "deleted file mode "
     case NewFileMode(_) => "new file mode "
     case CopyFrom(_) => "copy from "
     case CopyTo(_) => "copy to "
     case RenameFrom(_) => "rename from "
     case RenameTo(_) => "rename to "
     case SimilarityIndex(_) => "similarity index "
     case DissimilarityIndex(_) => "dissimilarity index "
     case Index(_) => "index "
     case BinaryFiles(_) => "Binary files ") + h.text
  }

  function PrintBody(body: seq<BodyLine>): seq<string> {
    if body == [] then [] else [PrintBodyLine(body[0])] + PrintBody(body[1..])
  }

  function PrintHunks(hunks: seq<Hunk>): seq<string> {
    if hunks == [] then [] else ["@@ " + hunks[0].range] + PrintBody(hunks[0].body) + PrintHunks(hunks[1..])
  }

  function PrintHeaders(headers: seq<Header>): seq<string> {
    if headers == [] then [] else [PrintHeader(headers[0])] + PrintHeaders(headers[1..])
  }

  function PrintContent(c: Option<Content>): seq<string> {
    if c.None? then []
    else ["--- " + c.value.oldName, "+++ " + c.value.newName] + PrintHunks(c.value.hunks)
  }

  function PrintFile(f: FileDiff): seq<string> {
    ["diff --git " + f.names] + PrintHeaders(f.headers) + PrintContent(f.content)
  }

  function PrintFiles(files: seq<FileDiff>): seq<string> {
    if files == [] then [] else PrintFile(files[0]) + PrintFiles(files[1..])
  }

  function Render(lines: seq<string>): string {
    if lines == [] then "" else lines[0] + "\n" + Render(lines[1..])
  }

  // What the summary of a structured diff should be

  const NOTHING: Summary := Summary(0, 0, [])

  function SumBodyLine(env: Env, path: Option<string>, l: BodyLine): Summary {
    match l
    case Added(t) => Summary(1, 0, Effective(env, path, t))
    case Deleted(_) => Summary(0, 1, [])
    case _ => NOTHING
  }

  function SumBody(env: Env, path: Option<string>, body: seq<BodyLine>): Summary
    decreases |body|
  {
    if body == [] then NOTHING
    else
      Plus(SumBodyLine(env, path, body[0]), SumBody(env, path, body[1..]))
  }

  function SumHunks(env: Env, path: Option<string>, hunks: seq<Hunk>): Summary
    decreases |hunks|
  {
    if hunks == [] then NOTHING
    else Plus(SumBody(env, path, hunks[0].body), SumHunks(env, path, hunks[1..]))
  }

  function SumContent(env: Env, c: Option<Content>): Summary {
    if c.None? then NOTHING else SumHunks(env, NormalizeDiffPath(c.value.newName), c.value.hunks)
  }

  function SumFiles(env: Env, files: seq<FileDiff>): Summary
    decreases |files|
  {
    if files == [] then NOTHING else Plus(SumContent(env, files[0].content), SumFiles(env, files[1..]))
  }

  lemma PlusLaws(a: Summary, b: Summary, c: Summary)
    ensures Plus(Plus(a, b), c) == Plus(a, Plus(b, c))
    ensures Plus(a, NOTHING) == a && Plus(NOTHING, a) == a
  {
    assert (a.fingerprints + b.fingerprints) + c.fingerprints == a.fingerprints + (b.fingerprints + c.fingerprints);
  }

  lemma BodyLook(l: BodyLine)
    ensures var line := PrintBodyLine(l);
      match l
      case Added(t) => (LookOf(line) == PlusLine || LookOf(line) == NewNameLine) && line[1..] == t
      case Deleted(t) => LookOf(line) == MinusLine || LookOf(line) == OldNameLine
      case _ => LookOf(line) == PlainLine
  {
    var line := PrintBodyLine(l);
    assert line[0] != 'd' && line[0] != '@';
  }

  lemma {:induction false} BodyScan(env: Env, s: Scan, body: seq<BodyLine>)
    requires s.inHunk
    ensures ScanLines(env, s, PrintBody(body)) == s.(summary := Plus(s.summary, SumBody(env, s.path, body)))
    decreases |body|
  {
    if body == [] {
      PlusLaws(s.summary, NOTHING, NOTHING);
    } else {
      BodyLook(body[0]);
      var next := ScanLine(env, s, PrintBodyLine(body[0]));
      var one := SumBodyLine(env, s.path, body[0]);
      assert next == s.(summary := Plus(s.summary, one));
      BodyScan(env, next, body[1..]);
      PlusLaws(s.summary, one, SumBody(env, s.path, body[1..]));
    }
  }

  lemma {:induction false} HunksScan(env: Env, s: Scan, hunks: seq<Hunk>)
    ensures ScanLines(env, s, PrintHunks(hunks)) ==
      s.(inHunk := s.inHunk || hunks != [], summary := Plus(s.summary, SumHunks(env, s.path, hunks)))
    decreases |hunks|
  {
    if hunks == [] {
      PlusLaws(s.summary, NOTHING, NOTHING);
    } else {
      var at, body, rest := "@@ " + hunks[0].range, PrintBody(hunks[0].body), PrintHunks(hunks[1..]);
      var inside := s.(inHunk := true);
      assert ScanLine(env, s, at) == inside by {
        assert at[0] == '@';
        assert LookOf(at) == AtLine;
      }
      assert [at] + body + rest == [at] + (body + rest);
      ScanConcat(env, inside, body, rest);
      BodyScan(env, inside, hunks[0].body);
      var one := SumBody(env, s.path, hunks[0].body);
      HunksScan(env, inside.(summary := Plus(s.summary, one)), hunks[1..]);
      PlusLaws(s.summary, one, SumHunks(env, s.path, hunks[1..]));
    }
  }

  lemma HeaderLook(h: Header)
    ensures LookOf(PrintHeader(h)) == PlainLine
  {
    var line := PrintHeader(h);
    assert line[0] != '@' && line[0] != '+' && line[0] != '-';
    assert line[0] == 'd' ==> line[2] != 'f';
  }

  lemma {:induction false} HeadersScan(env: Env, s: Scan, headers: seq<Header>)
    ensures ScanLines(env, s, PrintHeaders(headers)) == s
    decreases |headers|
  {
    if headers != [] {
      HeaderLook(headers[0]);
      HeadersScan(env, s, headers[1..]);
    }
  }

  /** The two name lines of a file set its path. */
  lemma NamesScan(env: Env, s: Scan, oldName: string, newName: string)
    requires !s.inHunk
    ensures ScanLine(env, s, "--- " + oldName) == s
    ensures ScanLine(env, s, "+++ " + newName) == s.(path := NormalizeDiffPath(newName))
  {
    var oldLine, newLine := "--- " + oldName, "+++ " + newName;
    assert oldLine[0] == '-' && LookOf(oldLine) == OldNameLine;
    assert newLine[0] == '+' && LookOf(newLine) == NewNameLine && newLine[4..] == newName;
  }

  lemma ContentScan(env: Env, s: Scan, c: Option<Content>)
    requires !s.inHunk
    ensures ScanLines(env, s, PrintContent(c)).summary == Plus(s.summary, SumContent(env, c))
  {
    PlusLaws(s.summary, NOTHING, NOTHING);
    if c.Some? {
      hide LookOf, ScanLine, NormalizeDiffPath, Plus, SumHunks, PrintHunks;
      var oldLine, newLine := "--- " + c.value.oldName, "+++ " + c.value.newName;
      var named := s.(path := NormalizeDiffPath(c.value.newName));
      NamesScan(env, s, c.value.oldName, c.value.newName);
      var hunks := PrintHunks(c.value.hunks);
      var lines := [oldLine, newLine] + hunks;
      assert lines[1..] == [newLine] + hunks && ([newLine] + hunks)[1..] == hunks;
      assert ScanLines(env, s, lines) == ScanLines(env, s, [newLine] + hunks);
      assert ScanLines(env, s, [newLine] + hunks) == ScanLines(env, named, hunks);
      HunksScan(env, named, c.value.hunks);
    }
  }

  lemma FileScan(env: Env, s: Scan, f: FileDiff)
    ensures ScanLines(env, s, PrintFile(f)).summary == Plus(s.summary, SumContent(env, f.content))
  {
    var git, headers, content := "diff --git " + f.names, PrintHeaders(f.headers), PrintContent(f.content);
    var reset := s.(path := None, inHunk := false);
    assert git[0] == 'd' && LookOf(git) == GitLine;
    assert [git] + headers + content == [git] + (headers + content);
    ScanConcat(env, reset, headers, content);
    HeadersScan(env, reset, f.headers);
    ContentScan(env, reset, f.content);
  }

  lemma {:induction false} FilesScan(env: Env, s: Scan, files: seq<FileDiff>)
    ensures ScanLines(env, s, PrintFiles(files)).summary == Plus(s.summary, SumFiles(env, files))
    decreases |files|
  {
    if files == [] {
      PlusLaws(s.summary, NOTHING, NOTHING);
    } else {
      FileScan(env, s, files[0]);
      ScanConcat(env, s, PrintFile(files[0]), PrintFiles(files[1..]));
      FilesScan(env, ScanLines(env, s, PrintFile(files[0])), files[1..]);
      PlusLaws(s.summary, SumContent(env, files[0].content), SumFiles(env, files[1..]));
    }
  }

  // From lines to text: carriage returns at the end of a line make no difference.

  lemma NormalizeIgnoresCr(env: Env, text: string)
    ensures NormalizeEffectiveLine(env, text + ['\r']) == NormalizeEffectiveLine(env, text)
    ensures NormalizeDiffPath(text + ['\r']) == NormalizeDiffPath(text)
  {
    assert (text + ['\r'])[..|text|] == text;
  }

  lemma LookIgnoresCr(line: string)
    ensures LookOf(line + ['\r']) == LookOf(line)
  {
    var more := line + ['\r'];
    assert forall i :: 0 <= i < |line| ==> more[i] == line[i];
    PrefixIgnoresCr("diff --git ", line);
    PrefixIgnoresCr("@@ ", line);
    PrefixIgnoresCr("+++ ", line);
    PrefixIgnoresCr("--- ", line);
    PrefixIgnoresCr("+", line);
    PrefixIgnoresCr("-", line);
  }

  lemma PrefixIgnoresCr(prefix: string, line: string)
    requires prefix != [] && prefix[|prefix| - 1] != '\r'
    ensures prefix <= line + ['\r'] <==> prefix <= line
  {
    assert |prefix| == |line| + 1 ==> (line + ['\r'])[|prefix| - 1] == '\r';
  }

  lemma AddIgnoresCr(env: Env, s: Scan, bare: string)
    requires bare != []
    ensures Add(env, s, (bare + ['\r'])[1..]) == Add(env, s, bare[1..])
  {
    assert (bare + ['\r'])[1..] == bare[1..] + ['\r'];
    NormalizeIgnoresCr(env, bare[1..]);
  }

  lemma LineIgnoresCr(env: Env, s: Scan, bare: string)
    ensures ScanLine(env, s, bare + ['\r']) == ScanLine(env, s, bare)
  {
    LookIgnoresCr(bare);
    var look := LookOf(bare);
    if look == NewNameLine && !s.inHunk {
      assert (bare + ['\r'])[4..] == bare[4..] + ['\r'];
      NormalizeIgnoresCr(env, bare[4..]);
    } else if look == NewNameLine || look == PlusLine {
      AddIgnoresCr(env, s, bare);
    }
  }

  lemma ScanIgnoresCr(env: Env, s: Scan, line: string)
    ensures ScanLine(env, s, StripCr(line)) == ScanLine(env, s, line)
  {
    if StripCr(line) != line {
      assert line == StripCr(line) + ['\r'];
      LineIgnoresCr(env, s, StripCr(line));
    }
  }

  lemma {:induction false} ScanRendered(env: Env, s: Scan, lines: seq<string>)
    requires forall i :: 0 <= i < |lines| ==> '\n' !in lines[i]
    ensures ScanLines(env, s, Lines(Render(lines))) == ScanLines(env, s, lines)
    decreases |lines|
  {
    if lines != [] {
      var line, rest := lines[0], Render(lines[1..]);
      var text := line + "\n" + rest;
      NewlineIsFirst(text, |line|);
      assert text[..|line|] == line && text[|line| + 1..] == rest;
      assert Lines(text) == [StripCr(line)] + Lines(rest);
      ScanIgnoresCr(env, s, line);
      ScanRendered(env, ScanLine(env, s, line), lines[1..]);
    }
  }

  /** For every git diff, printed from its files and hunks: the summary counts exactly the added and deleted
      body lines and fingerprints the effective added ones in order, even when they look like headers. */
  lemma PrintedDiffSummary(env: Env, files: seq<FileDiff>)
    requires forall i :: 0 <= i < |PrintFiles(files)| ==> '\n' !in PrintFiles(files)[i]
    ensures Summarize(env, Render(PrintFiles(files))) == SumFiles(env, files)
  {
    ScanRendered(env, START, PrintFiles(files));
    FilesScan(env, START, files);
    PlusLaws(SumFiles(env, files), NOTHING, NOTHING);
  }

  lemma TwoLines(a: string, b: string)
    requires '\n' !in a && StripCr(a) == a && '\n' !in b && b != ""
    ensures Lines(a + "\n" + b) == [a, b]
  {
    var text := a + "\n" + b;
    NewlineIsFirst(text, |a|);
    assert text[..|a|] == a && text[|a| + 1..] == b;
    assert NewlineAt(b) == |b|;
  }

  lemma TwoLineScan(env: Env, a: string, b: string)
    ensures ScanLines(env, START, [a, b]) == ScanLine(env, ScanLine(env, START, a), b)
    ensures ScanLines(env, START, [a]) == ScanLine(env, START, a)
  {
    var s := ScanLine(env, START, a);
    assert [a, b][1..] == [b] && [b][1..] == [] && [a][1..] == [];
    assert ScanLines(env, s, [b]) == ScanLine(env, s, b);
  }

  /** Without a line boundary the sum law can fail: an open hunk swallows the header of the second part. */
  lemma SummaryNeedsLineBoundary(env: Env, at: string, git: string, name: string)
    requires '\n' !in at && '\n' !in git && '\n' !in name && StripCr(at + git) == at + git && StripCr(git) == git
    requires LookOf(at) == AtLine && LookOf(at + git) == AtLine && LookOf(git) == GitLine && LookOf(name) == NewNameLine
    ensures Summarize(env, at + (git + "\n" + name)) != Plus(Summarize(env, at), Summarize(env, git + "\n" + name))
  {
    assert at + (git + "\n" + name) == (at + git) + "\n" + name;
    TwoLines(at + git, name);
    TwoLines(git, name);
    TwoLineScan(env, at + git, name);
    TwoLineScan(env, git, name);
    TwoLineScan(env, at, name);
    assert NewlineAt(at) == |at| && Lines(at) == [at];
    assert Summarize(env, at + (git + "\n" + name)).added == 1;
    assert Summarize(env, at).added == 0 && Summarize(env, git + "\n" + name).added == 0;
  }

  lemma SwallowedHeaderExample(env: Env)
    ensures Summarize(env, "@@ " + ("diff --git " + "\n" + "+++ y")) !=
      Plus(Summarize(env, "@@ "), Summarize(env, "diff --git " + "\n" + "+++ y"))
  {
    assert LookOf("@@ ") == AtLine by { assert "@@ "[0] == '@'; }
    assert LookOf("@@ " + "diff --git ") == AtLine by { assert ("@@ " + "diff --git ")[0] == '@'; }
    assert LookOf("+++ y") == NewNameLine by { assert "+++ y"[0] == '+'; }
    SummaryNeedsLineBoundary(env, "@@ ", "diff --git ", "+++ y");
  }
}
