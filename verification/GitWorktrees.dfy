/** Reading the output of `git worktree list --porcelain`. */
module GitWorktrees {
  import opened Options
  import opened Text

  datatype WorktreeEntry = WorktreeEntry(path: string, branch: Option<string>)

  /** The parser's variables between two lines. */
  datatype Scan = Scan(
    path: Option<string>, head: Option<string>, branch: Option<string>, entries: seq<WorktreeEntry>)

  const START := Scan(None, None, None, [])

  function StripPrefix(s: string, prefix: string): (r: Option<string>)
    ensures r.Some? ==> s == prefix + r.value
    ensures r.None? ==> !(prefix <= s)
  {
    if prefix <= s then Some(s[|prefix|..]) else None
  }

  /** What ends a record: it is listed only if both its path and its head have been seen. */
  function Ended(s: Scan): Scan {
    if s.path.Some? && s.head.Some?
    then Scan(None, None, None, s.entries + [WorktreeEntry(s.path.value, s.branch)])
    else Scan(None, None, s.branch, s.entries)
  }

  function Read(s: Scan, raw: string): Scan {
    var line := Trim(raw);
    var path, head, branch :=
      StripPrefix(line, "worktree "), StripPrefix(line, "HEAD "), StripPrefix(line, "branch ");
    if line == "" then Ended(s)
    else if path.Some? then s.(path := path)
    else if head.Some? then s.(head := head)
    else if branch.Some? then s.(branch := StripPrefix(branch.value, "refs/heads/"))
    else s
  }

  function ReadAll(s: Scan, lines: seq<string>): Scan
    decreases |lines|
  {
    if |lines| == 0 then s else ReadAll(Read(s, lines[0]), lines[1..])
  }

  /** The record still open at the end of the output is listed on the same condition. */
  function Finished(s: Scan): seq<WorktreeEntry> {
    Ended(s).entries
  }

  method ListWorktrees(out: string) returns (entries: seq<WorktreeEntry>)
    ensures entries == Finished(ReadAll(START, Lines(out)))
  {
    entries := [];
    var currentPath, currentHead, currentBranch: Option<string> := None, None, None;
    var lines := Lines(out);
    var n := 0;
    while n < |lines|
      invariant 0 <= n <= |lines|
      invariant ReadAll(Scan(currentPath, currentHead, currentBranch, entries), lines[n..]) == ReadAll(START, lines)
    {
      ReadNext(Scan(currentPath, currentHead, currentBranch, entries), lines, n);
      hide ReadAll, Trim, StripPrefix, Lines;
      var line := Trim(lines[n]);
      var path, head, branchRef :=
        StripPrefix(line, "worktree "), StripPrefix(line, "HEAD "), StripPrefix(line, "branch ");
      if line == "" {
        if currentPath.Some? && currentHead.Some? {
          entries := entries + [WorktreeEntry(currentPath.value, currentBranch)];
          currentBranch := None;
        }
        currentPath, currentHead := None, None;
      } else if path.Some? {
        currentPath := path;
      } else if head.Some? {
        currentHead := head;
      } else if branchRef.Some? {
        currentBranch := StripPrefix(branchRef.value, "refs/heads/");
      }
      n := n + 1;
    }
    if currentPath.Some? && currentHead.Some? {
      entries := entries + [WorktreeEntry(currentPath.value, currentBranch)];
    }
  }

  lemma ReadNext(s: Scan, lines: seq<string>, n: nat)
    requires n < |lines|
    ensures ReadAll(s, lines[n..]) == ReadAll(Read(s, lines[n]), lines[n + 1..])
  {
    assert lines[n..][0] == lines[n] && lines[n..][1..] == lines[n + 1..];
  }

  lemma {:induction false} ReadAllConcat(s: Scan, a: seq<string>, b: seq<string>)
    ensures ReadAll(s, a + b) == ReadAll(ReadAll(s, a), b)
    decreases |a|
  {
    if |a| == 0 {
      assert a + b == b;
    } else {
      assert (a + b)[1..] == a[1..] + b;
      ReadAllConcat(Read(s, a[0]), a[1..], b);
    }
  }

  /** Whether the output ends in a blank line makes no difference, whatever it holds. */
  lemma TrailingBlankIsFree(lines: seq<string>, blank: string)
    requires AllSpace(blank)
    ensures Finished(ReadAll(START, lines + [blank])) == Finished(ReadAll(START, lines))
  {
    ReadAllConcat(START, lines, [blank]);
    BlankTrims(blank);
  }

  lemma BlankTrims(blank: string)
    requires AllSpace(blank)
    ensures Trim(blank) == ""
  {
    TrimEndOfBlank("", blank);
    assert "" + blank == blank;
  }

  // ---------------------------------------------------------------- git's side

  /** A worktree as git prints it: a bare one has no head; `notes` are "bare", "detached", "locked" and the like. */
  datatype Worktree = Worktree(path: string, head: Option<string>, branchRef: Option<string>, notes: seq<string>)

  ghost predicate Visible(s: string) {
    !AllSpace(s) && CleanLine(s)
  }

  ghost predicate Note(line: string) {
    && Visible(line) && Tight(line)
    && !("worktree " <= line) && !("HEAD " <= line) && !("branch " <= line)
  }

  ghost predicate Printable(w: Worktree) {
    && Visible(w.path)
    && (w.head.Some? ==> Visible(w.head.value))
    && (w.branchRef.Some? ==> w.head.Some? && Visible(w.branchRef.value))
    && forall i :: 0 <= i < |w.notes| ==> Note(w.notes[i])
  }

  function HeadLine(w: Worktree): seq<string> {
    if w.head.Some? then ["HEAD " + w.head.value] else []
  }

  function BranchLine(w: Worktree): seq<string> {
    if w.branchRef.Some? then ["branch " + w.branchRef.value] else []
  }

  function RecordLines(w: Worktree): seq<string> {
    ["worktree " + w.path] + (HeadLine(w) + (BranchLine(w) + (w.notes + [""])))
  }

  function AllLines(ws: seq<Worktree>): seq<string> {
    if |ws| == 0 then [] else RecordLines(ws[0]) + AllLines(ws[1..])
  }

  function ShortName(branchRef: Option<string>): Option<string> {
    if branchRef.Some? then StripPrefix(branchRef.value, "refs/heads/") else None
  }

  function EndTrimmed(o: Option<string>): Option<string> {
    if o.Some? then Some(TrimEnd(o.value)) else None
  }

  function Listed(ws: seq<Worktree>): seq<WorktreeEntry> {
    if |ws| == 0 then []
    else (if ws[0].head.Some? then [WorktreeEntry(ws[0].path, ShortName(ws[0].branchRef))] else []) + Listed(ws[1..])
  }

  function Trimmed(w: Worktree): Worktree {
    w.(path := TrimEnd(w.path), branchRef := EndTrimmed(w.branchRef))
  }

  function AllTrimmed(ws: seq<Worktree>): (r: seq<Worktree>)
    ensures |r| == |ws|
  {
    if |ws| == 0 then [] else [Trimmed(ws[0])] + AllTrimmed(ws[1..])
  }

  /** A keyword and a value with something visible in it lose only what is blank at the end. */
  lemma TrimKeyword(keyword: string, value: string)
    requires keyword != "" && !IsSpace(keyword[0]) && !AllSpace(value)
    ensures Trim(keyword + value) == keyword + TrimEnd(value)
  {
    TrimEndTail(keyword, value);
    assert (keyword + TrimEnd(value))[0] == keyword[0];
  }

  lemma OtherKeyword(keyword: string, value: string, other: string)
    requires keyword != "" && other != "" && keyword[0] != other[0]
    ensures StripPrefix(keyword + value, other) == None
  {
    assert (keyword + value)[0] == keyword[0];
  }

  lemma ReadPath(s: Scan, value: string)
    requires !AllSpace(value)
    ensures Read(s, "worktree " + value) == s.(path := Some(TrimEnd(value)))
  {
    TrimKeyword("worktree ", value);
    hide Trim, TrimEnd, Ended;
  }

  lemma ReadHead(s: Scan, value: string)
    requires !AllSpace(value)
    ensures Read(s, "HEAD " + value) == s.(head := Some(TrimEnd(value)))
  {
    TrimKeyword("HEAD ", value);
    hide Trim, TrimEnd, Ended;
    OtherKeyword("HEAD ", TrimEnd(value), "worktree ");
  }

  lemma ReadBranch(s: Scan, value: string)
    requires !AllSpace(value)
    ensures Read(s, "branch " + value) == s.(branch := StripPrefix(TrimEnd(value), "refs/heads/"))
  {
    TrimKeyword("branch ", value);
    hide Trim, TrimEnd, Ended;
    OtherKeyword("branch ", TrimEnd(value), "worktree ");
    OtherKeyword("branch ", TrimEnd(value), "HEAD ");
  }

  lemma ReadNote(s: Scan, note: string)
    requires Note(note)
    ensures Read(s, note) == s
  {
    TrimIsTight(note);
  }

  lemma {:induction false} ReadNotes(s: Scan, notes: seq<string>)
    requires forall i :: 0 <= i < |notes| ==> Note(notes[i])
    ensures ReadAll(s, notes) == s
  {
    if |notes| > 0 {
      ReadNote(s, notes[0]);
      ReadNotes(s, notes[1..]);
    }
  }

  lemma ReadOne(s: Scan, line: string)
    ensures ReadAll(s, [line]) == Read(s, line)
  {
    assert ReadAll(Read(s, line), [line][1..]) == Read(s, line);
  }

  lemma ReadHeadLine(s: Scan, w: Worktree)
    requires Printable(w)
    ensures ReadAll(s, HeadLine(w)) == if w.head.Some? then s.(head := EndTrimmed(w.head)) else s
  {
    if w.head.Some? {
      ReadOne(s, HeadLine(w)[0]);
      ReadHead(s, w.head.value);
    }
  }

  lemma ReadBranchLine(s: Scan, w: Worktree)
    requires Printable(w)
    ensures ReadAll(s, BranchLine(w)) == if w.branchRef.Some? then s.(branch := ShortName(EndTrimmed(w.branchRef))) else s
  {
    if w.branchRef.Some? {
      ReadOne(s, BranchLine(w)[0]);
      ReadBranch(s, w.branchRef.value);
    }
  }

  lemma ReadRecord(entries: seq<WorktreeEntry>, w: Worktree)
    requires Printable(w)
    ensures ReadAll(Scan(None, None, None, entries), RecordLines(w)) == Scan(None, None, None, entries + Listed([Trimmed(w)]))
  {
    hide Read, Ended;
    var s := Scan(None, None, None, entries);
    var first := ["worktree " + w.path];
    ReadAllConcat(s, first, HeadLine(w) + (BranchLine(w) + (w.notes + [""])));
    ReadOne(s, first[0]);
    ReadPath(s, w.path);
    var s1 := s.(path := Some(TrimEnd(w.path)));
    ReadAllConcat(s1, HeadLine(w), BranchLine(w) + (w.notes + [""]));
    ReadHeadLine(s1, w);
    var s2 := ReadAll(s1, HeadLine(w));
    ReadAllConcat(s2, BranchLine(w), w.notes + [""]);
    ReadBranchLine(s2, w);
    var s3 := ReadAll(s2, BranchLine(w));
    ReadAllConcat(s3, w.notes, [""]);
    ReadNotes(s3, w.notes);
    ReadOne(s3, "");
    EndRecord(s3, entries, w);
  }

  lemma EndRecord(s: Scan, entries: seq<WorktreeEntry>, w: Worktree)
    requires w.branchRef.Some? ==> w.head.Some?
    requires s == Scan(Some(TrimEnd(w.path)), EndTrimmed(w.head), ShortName(EndTrimmed(w.branchRef)), entries)
    ensures Read(s, "") == Scan(None, None, None, entries + Listed([Trimmed(w)]))
  {
    BlankTrims("");
    var t := Trimmed(w);
    assert [t][1..] == [] && Listed([]) == [];
    assert Listed([t]) == if t.head.Some? then [WorktreeEntry(t.path, ShortName(t.branchRef))] else [];
  }

  lemma {:induction false} ReadRecords(entries: seq<WorktreeEntry>, ws: seq<Worktree>)
    requires forall i :: 0 <= i < |ws| ==> Printable(ws[i])
    ensures ReadAll(Scan(None, None, None, entries), AllLines(ws))
            == Scan(None, None, None, entries + Listed(AllTrimmed(ws)))
    decreases |ws|
  {
    hide ReadAll, RecordLines, Printable, Trimmed, Ended, Read;
    var start := Scan(None, None, None, entries);
    if |ws| == 0 {
      ReadNone(start);
      assert entries + [] == entries;
    } else {
      var now, rest := Listed([Trimmed(ws[0])]), Listed(AllTrimmed(ws[1..]));
      ReadAllConcat(start, RecordLines(ws[0]), AllLines(ws[1..]));
      ReadRecord(entries, ws[0]);
      ReadRecords(entries + now, ws[1..]);
      ListedStep(AllTrimmed(ws));
      hide Listed;
      assert AllTrimmed(ws)[0] == Trimmed(ws[0]) && AllTrimmed(ws)[1..] == AllTrimmed(ws[1..]);
      assert entries + (now + rest) == (entries + now) + rest;
    }
  }

  lemma ReadNone(s: Scan)
    ensures ReadAll(s, []) == s
  {}

  lemma ListedStep(ws: seq<Worktree>)
    requires |ws| > 0
    ensures Listed(ws) == Listed([ws[0]]) + Listed(ws[1..])
  {
    assert [ws[0]][1..] == [] && Listed([]) == [];
  }

  lemma {:induction false} LinesAreClean(ws: seq<Worktree>)
    requires forall i :: 0 <= i < |ws| ==> Printable(ws[i])
    ensures forall i :: 0 <= i < |AllLines(ws)| ==> CleanLine(AllLines(ws)[i])
  {
    if |ws| > 0 {
      LinesAreClean(ws[1..]);
      var w := ws[0];
      KeywordClean("worktree ", w.path);
      if w.head.Some? {
        KeywordClean("HEAD ", w.head.value);
      }
      if w.branchRef.Some? {
        KeywordClean("branch ", w.branchRef.value);
      }
      assert forall i :: 0 <= i < |HeadLine(w)| ==> CleanLine(HeadLine(w)[i]);
      assert forall i :: 0 <= i < |BranchLine(w)| ==> CleanLine(BranchLine(w)[i]);
      assert forall i :: 0 <= i < |w.notes| ==> CleanLine(w.notes[i]);
    }
  }

  lemma KeywordClean(keyword: string, value: string)
    requires '\n' !in keyword && Visible(value)
    ensures CleanLine(keyword + value)
  {
    assert (keyword + value)[|keyword + value| - 1] == value[|value| - 1];
  }

  ghost predicate EndsVisibly(s: string) {
    s != "" && !IsSpace(s[|s| - 1])
  }

  /** Nothing of this worktree's path and short branch name is lost to trimming. */
  ghost predicate Kept(w: Worktree) {
    w.head.Some? ==>
      && EndsVisibly(w.path)
      && (w.branchRef.Some? && "refs/heads/" <= w.branchRef.value ==> EndsVisibly(w.branchRef.value))
  }

  lemma KeptExactly(w: Worktree)
    requires Printable(w)
    ensures Listed([Trimmed(w)]) == Listed([w]) <==> Kept(w)
  {
    var t := Trimmed(w);
    assert [t][1..] == [] && [w][1..] == [] && Listed([]) == [];
    if w.head.Some? {
      assert Listed([t]) == [WorktreeEntry(t.path, ShortName(t.branchRef))];
      assert Listed([w]) == [WorktreeEntry(w.path, ShortName(w.branchRef))];
      assert Listed([t])[0] == Listed([w])[0] <==> Listed([t]) == Listed([w]);
      if w.branchRef.Some? {
        NameKept(w.branchRef.value);
      }
    }
  }

  lemma NameKept(name: string)
    requires !AllSpace(name)
    ensures StripPrefix(TrimEnd(name), "refs/heads/") == StripPrefix(name, "refs/heads/")
            <==> ("refs/heads/" <= name ==> EndsVisibly(name))
  {
    var prefix := "refs/heads/";
    if prefix <= name {
      var rest := name[|prefix|..];
      assert name == prefix + rest;
      TrimEndTail(prefix, rest);
      assert !IsSpace(prefix[|prefix| - 1]);
      assert TrimEnd(prefix) == prefix;
      assert TrimEnd(name) == prefix + TrimEnd(rest);
    }
  }

  lemma AtMostOne(w: Worktree)
    ensures |Listed([Trimmed(w)])| == |Listed([w])| == if w.head.Some? then 1 else 0
  {
    assert [Trimmed(w)][1..] == [] && [w][1..] == [] && Listed([]) == [];
  }

  lemma {:induction false} AllKeptExactly(ws: seq<Worktree>)
    requires forall i :: 0 <= i < |ws| ==> Printable(ws[i])
    ensures Listed(AllTrimmed(ws)) == Listed(ws) <==> forall w :: w in ws ==> Kept(w)
    ensures |Listed(AllTrimmed(ws))| == |Listed(ws)|
  {
    if |ws| > 0 {
      var w, rest := ws[0], ws[1..];
      KeptExactly(w);
      AllKeptExactly(rest);
      AtMostOne(w);
      ListedStep(ws);
      ListedStep(AllTrimmed(ws));
      hide Kept, Listed, Printable;
      assert ws == [w] + rest;
      assert AllTrimmed(ws)[0] == Trimmed(w) && AllTrimmed(ws)[1..] == AllTrimmed(rest);
      var a, b := Listed([Trimmed(w)]), Listed([w]);
      SameConcat(a, b, Listed(AllTrimmed(rest)), Listed(rest));
    }
  }

  lemma SameConcat<T>(a: seq<T>, b: seq<T>, x: seq<T>, y: seq<T>)
    requires |a| == |b|
    ensures a + x == b + y <==> a == b && x == y
  {
    if a + x == b + y {
      assert a == (a + x)[..|a|] && b == (b + y)[..|b|];
      assert x == (a + x)[|a|..] && y == (b + y)[|b|..];
    }
  }

  lemma NoLines()
    ensures Lines("") == []
  {}

  /**
   * Reading git's listing gives the worktrees that have a head, bare ones left out, with their paths and
   * branch names; they come back exactly unless one of these ends in white space, which is trimmed.
   */
  lemma WorktreeRoundTrip(ws: seq<Worktree>)
    requires forall i :: 0 <= i < |ws| ==> Printable(ws[i])
    ensures var read := Finished(ReadAll(START, Lines(Unlines(AllLines(ws)))));
            && read == Listed(AllTrimmed(ws))
            && (read == Listed(ws) <==> forall w :: w in ws ==> Kept(w))
  {
    hide Printable, AllLines, ReadAll, Listed, Kept, CleanLine, Split;
    var lines := AllLines(ws);
    LinesAreClean(ws);
    LinesUnlines(lines, "");
    assert Unlines(lines) + "" == Unlines(lines);
    NoLines();
    assert lines + [] == lines;
    ReadRecords([], ws);
    assert [] + Listed(AllTrimmed(ws)) == Listed(AllTrimmed(ws));
    AllKeptExactly(ws);
  }
}
