/** What is read back from git's machine-readable output: status, name-status and the list of worktrees. */
module GitParsers {
  import opened Options
  import opened Text

  // ---------------------------------------------------------------- git status --porcelain -z

  type Byte = b: int | 0 <= b < 256

  const SPACE: Byte := 32
  const QUERY: Byte := 63
  const CAP_C: Byte := 67
  const CAP_R: Byte := 82
  const NUL: Byte := 0

  datatype StatusEntry = StatusEntry(
    staged: Byte, unstaged: Byte, path: seq<Byte>, origPath: Option<seq<Byte>>, isUntracked: bool)

  datatype WorktreeStatus = WorktreeStatus(uncommittedTracked: nat, untracked: nat, entries: seq<StatusEntry>)

  predicate Moved(staged: Byte, unstaged: Byte) {
    staged == CAP_R || unstaged == CAP_R || staged == CAP_C || unstaged == CAP_C
  }

  /** The entry's two status letters are these. */
  predicate Letters(e: StatusEntry, staged: char, unstaged: char) {
    e.staged == staged as int && e.unstaged == unstaged as int
  }

  predicate Untracked(e: StatusEntry) {
    Letters(e, '?', '?')
  }

  predicate Changed(e: StatusEntry) {
    !Untracked(e) && !Letters(e, ' ', ' ')
  }

  /** The code of a rename or a copy, in the index or in the working tree. */
  predicate RenamedOrCopied(e: StatusEntry) {
    e.staged == 'R' as int || e.unstaged == 'R' as int || e.staged == 'C' as int || e.unstaged == 'C' as int
  }

  function Untrackeds(es: seq<StatusEntry>): nat {
    if |es| == 0 then 0 else Untrackeds(es[..|es| - 1]) + if Untracked(es[|es| - 1]) then 1 else 0
  }

  function Changes(es: seq<StatusEntry>): nat {
    if |es| == 0 then 0 else Changes(es[..|es| - 1]) + if Changed(es[|es| - 1]) then 1 else 0
  }

  /** The positions of the entries with two question marks. */
  function UntrackedAt(es: seq<StatusEntry>): set<nat> {
    set i: nat | 0 <= i < |es| && es[i].staged == 63 && es[i].unstaged == 63
  }

  /** The positions of the entries with neither two question marks nor two spaces. */
  function ChangedAt(es: seq<StatusEntry>): set<nat> {
    set i: nat | 0 <= i < |es| && !(es[i].staged == 63 && es[i].unstaged == 63) && (es[i].staged != 32 || es[i].unstaged != 32)
  }

  lemma OneMoreUntracked(es: seq<StatusEntry>)
    requires |es| > 0
    ensures |UntrackedAt(es)| == |UntrackedAt(es[..|es| - 1])| + if Untracked(es[|es| - 1]) then 1 else 0
  {
    var n: nat := |es| - 1;
    assert UntrackedAt(es) == if Untracked(es[n]) then UntrackedAt(es[..n]) + {n} else UntrackedAt(es[..n]);
  }

  lemma OneMoreChanged(es: seq<StatusEntry>)
    requires |es| > 0
    ensures |ChangedAt(es)| == |ChangedAt(es[..|es| - 1])| + if Changed(es[|es| - 1]) then 1 else 0
  {
    var n: nat := |es| - 1;
    assert ChangedAt(es) == if Changed(es[n]) then ChangedAt(es[..n]) + {n} else ChangedAt(es[..n]);
  }

  /** What the two counts count. */
  lemma {:induction false} CountsMean(es: seq<StatusEntry>)
    ensures Untrackeds(es) == |UntrackedAt(es)| && Changes(es) == |ChangedAt(es)|
  {
    if |es| > 0 {
      CountsMean(es[..|es| - 1]);
      OneMoreUntracked(es);
      OneMoreChanged(es);
      hide UntrackedAt, ChangedAt, Untracked, Changed;
    }
  }

  /** The origin is the part that follows, unless there is none or it is empty. */
  function OriginIn(rest: seq<seq<Byte>>): Option<seq<Byte>> {
    if |rest| > 0 && rest[0] != [] then Some(rest[0]) else None
  }

  function EntryOf(part: seq<Byte>, rest: seq<seq<Byte>>): StatusEntry
    requires |part| >= 4
  {
    StatusEntry(part[0], part[1], part[3..], if Moved(part[0], part[1]) then OriginIn(rest) else None,
                part[0] == QUERY && part[1] == QUERY)
  }

  function AfterEntry(part: seq<Byte>, rest: seq<seq<Byte>>): (r: seq<seq<Byte>>)
    requires |part| >= 4
    ensures |r| <= |rest|
  {
    if Moved(part[0], part[1]) && |rest| > 0 then rest[1..] else rest
  }

  function EntriesIn(parts: seq<seq<Byte>>): seq<StatusEntry>
    decreases |parts|
  {
    if |parts| == 0 then []
    else if |parts[0]| < 4 then EntriesIn(parts[1..])
    else [EntryOf(parts[0], parts[1..])] + EntriesIn(AfterEntry(parts[0], parts[1..]))
  }

  method GetWorktreeStatus(out: seq<Byte>) returns (r: WorktreeStatus)
    ensures r.entries == EntriesIn(Split(out, NUL))
    ensures r.untracked == Untrackeds(r.entries) && r.uncommittedTracked == Changes(r.entries)
  {
    var entries: seq<StatusEntry> := [];
    var uncommittedTracked, untracked := 0, 0;
    var parts := Split(out, NUL);
    while |parts| > 0
      invariant entries + EntriesIn(parts) == EntriesIn(Split(out, NUL))
      invariant untracked == Untrackeds(entries) && uncommittedTracked == Changes(entries)
      decreases |parts|
    {
      var part := parts[0];
      parts := parts[1..];
      if |part| < 4 {
        continue;
      }
      ghost var rest := parts;
      var staged, unstaged, path := part[0], part[1], part[3..];
      var origPath: Option<seq<Byte>> := None;
      if Moved(staged, unstaged) && |parts| > 0 {
        var oldPath := parts[0];
        parts := parts[1..];
        if oldPath != [] {
          origPath := Some(oldPath);
        }
      }
      var entry;
      if staged == QUERY && unstaged == QUERY {
        untracked := untracked + 1;
        entry := StatusEntry(staged, unstaged, path, origPath, true);
      } else {
        if staged != SPACE || unstaged != SPACE {
          uncommittedTracked := uncommittedTracked + 1;
        }
        entry := StatusEntry(staged, unstaged, path, origPath, false);
      }
      assert entry == EntryOf(part, rest) && parts == AfterEntry(part, rest);
      assert entries + ([entry] + EntriesIn(parts)) == entries + [entry] + EntriesIn(parts);
      assert (entries + [entry])[..|entries|] == entries;
      entries := entries + [entry];
    }
    r := WorktreeStatus(uncommittedTracked, untracked, entries);
  }

  /** The entries the parser can produce. */
  ghost predicate Shaped(e: StatusEntry) {
    && e.staged != NUL && e.unstaged != NUL
    && e.path != [] && NUL !in e.path
    && (e.origPath.Some? ==> RenamedOrCopied(e) && e.origPath.value != [] && NUL !in e.origPath.value)
    && (e.isUntracked <==> Untracked(e))
  }

  lemma {:induction false} ParsedIsShaped(parts: seq<seq<Byte>>)
    requires forall i :: 0 <= i < |parts| ==> NUL !in parts[i]
    ensures forall i :: 0 <= i < |EntriesIn(parts)| ==> Shaped(EntriesIn(parts)[i])
    decreases |parts|
  {
    if |parts| > 0 {
      if |parts[0]| < 4 {
        ParsedIsShaped(parts[1..]);
      } else {
        var e := EntryOf(parts[0], parts[1..]);
        assert parts[0][0] in parts[0] && parts[0][1] in parts[0];
        assert forall x :: x in e.path ==> x in parts[0];
        ParsedIsShaped(AfterEntry(parts[0], parts[1..]));
      }
    }
  }

  /** Whatever bytes are read, the entries have a path, and an origin only where the code allows one. */
  lemma StatusIsShaped(out: seq<Byte>)
    ensures forall e :: e in EntriesIn(Split(out, NUL)) ==> Shaped(e)
  {
    SplitPartsPlain(out, NUL);
    ParsedIsShaped(Split(out, NUL));
  }

  function FieldsOf(e: StatusEntry): seq<seq<Byte>> {
    [[e.staged, e.unstaged, SPACE] + e.path] + if e.origPath.Some? then [e.origPath.value] else []
  }

  function Fields(es: seq<StatusEntry>): seq<seq<Byte>> {
    if |es| == 0 then [] else FieldsOf(es[0]) + Fields(es[1..])
  }

  function Terminated(fields: seq<seq<Byte>>): seq<Byte> {
    if |fields| == 0 then [] else fields[0] + [NUL] + Terminated(fields[1..])
  }

  /** git's own format: two status letters, a space, the path, and after a NUL the origin if there is one. */
  function PrintStatus(es: seq<StatusEntry>): seq<Byte> {
    Terminated(Fields(es))
  }

  lemma {:induction false} SplitTerminated(fields: seq<seq<Byte>>)
    requires forall i :: 0 <= i < |fields| ==> NUL !in fields[i]
    ensures Split(Terminated(fields), NUL) == fields + [[]]
  {
    if |fields| > 0 {
      SplitTerminated(fields[1..]);
      SplitAt(fields[0], Terminated(fields[1..]), NUL);
      SplitPlain(fields[0], NUL);
    }
  }

  lemma {:induction false} FieldsPlain(es: seq<StatusEntry>)
    requires forall i :: 0 <= i < |es| ==> Shaped(es[i])
    ensures forall i :: 0 <= i < |Fields(es)| ==> NUL !in Fields(es)[i]
  {
    if |es| > 0 {
      FieldsPlain(es[1..]);
    }
  }

  /** Every move but the last entry carries its origin. */
  ghost predicate OriginsPresent(es: seq<StatusEntry>) {
    forall i :: 0 <= i < |es| - 1 && RenamedOrCopied(es[i]) ==> es[i].origPath.Some?
  }

  /**
   * Printed entries are read back unchanged exactly when no move without an origin stands before another
   * entry: such a move would swallow that entry as its origin.
   */
  lemma {:induction false} StatusRoundTrip(es: seq<StatusEntry>)
    requires forall i :: 0 <= i < |es| ==> Shaped(es[i])
    ensures EntriesIn(Split(PrintStatus(es), NUL)) == es <==> OriginsPresent(es)
  {
    FieldsPlain(es);
    SplitTerminated(Fields(es));
    FieldsRoundTrip(es);
  }

  lemma {:induction false} FieldsRoundTrip(es: seq<StatusEntry>)
    requires forall i :: 0 <= i < |es| ==> Shaped(es[i])
    ensures EntriesIn(Fields(es) + [[]]) == es <==> OriginsPresent(es)
    decreases |es|
  {
    var parts := Fields(es) + [[]];
    if |es| == 0 {
      assert parts == [[]];
    } else {
      var e, more := es[0], Fields(es[1..]) + [[]];
      assert parts == FieldsOf(e) + more;
      assert parts[0] == [e.staged, e.unstaged, SPACE] + e.path;
      assert parts[0][3..] == e.path;
      var moved := Moved(e.staged, e.unstaged);
      if moved && e.origPath.None? {
        assert parts[1..] == more;
        LoneMove(es);
      } else {
        if moved {
          assert parts[1..] == [e.origPath.value] + more && parts[1..][1..] == more;
        } else {
          assert parts[1..] == more;
        }
        assert EntryOf(parts[0], parts[1..]) == e && AfterEntry(parts[0], parts[1..]) == more;
        assert es == [e] + es[1..];
        FieldsRoundTrip(es[1..]);
        assert OriginsPresent(es) <==> OriginsPresent(es[1..]) by {
          OriginsTail(es);
        }
      }
    }
  }

  lemma OriginsTail(es: seq<StatusEntry>)
    requires |es| > 0 && (Moved(es[0].staged, es[0].unstaged) ==> es[0].origPath.Some?)
    ensures OriginsPresent(es) <==> OriginsPresent(es[1..])
  {
    if OriginsPresent(es[1..]) {
      forall i | 0 < i < |es| - 1 && Moved(es[i].staged, es[i].unstaged)
        ensures es[i].origPath.Some?
      {
        assert es[i] == es[1..][i - 1];
      }
    }
  }

  lemma LoneMove(es: seq<StatusEntry>)
    requires |es| > 0 && Shaped(es[0])
    requires Moved(es[0].staged, es[0].unstaged) && es[0].origPath.None?
    requires Fields(es) + [[]] == [[es[0].staged, es[0].unstaged, SPACE] + es[0].path] + (Fields(es[1..]) + [[]])
    ensures EntriesIn(Fields(es) + [[]]) == es <==> OriginsPresent(es)
  {
    var first, more := [es[0].staged, es[0].unstaged, SPACE] + es[0].path, Fields(es[1..]) + [[]];
    ReadMove(first, more);
    if |es| == 1 {
      LastMove(es[0], first, more);
      assert es == [es[0]];
    } else {
      assert more[0] == [es[1].staged, es[1].unstaged, SPACE] + es[1].path;
      hide Fields, EntriesIn, Shaped;
      assert EntryOf(first, more).origPath.Some?;
      assert ([EntryOf(first, more)] + EntriesIn(more[1..]))[0] == EntryOf(first, more);
    }
  }

  lemma ReadMove(first: seq<Byte>, more: seq<seq<Byte>>)
    requires |first| >= 4 && Moved(first[0], first[1]) && |more| > 0
    ensures EntriesIn([first] + more) == [EntryOf(first, more)] + EntriesIn(more[1..])
  {
    assert ([first] + more)[1..] == more;
  }

  lemma LastMove(e: StatusEntry, first: seq<Byte>, more: seq<seq<Byte>>)
    requires Shaped(e) && Moved(e.staged, e.unstaged) && e.origPath.None?
    requires first == [e.staged, e.unstaged, SPACE] + e.path && more == Fields([]) + [[]]
    ensures EntryOf(first, more) == e && EntriesIn(more[1..]) == []
  {
    assert more == [[]] && more[1..] == [];
    assert first[3..] == e.path;
  }

  // ---------------------------------------------------------------- git diff --name-status

  datatype ChangeType = Added | Modified | Deleted | Renamed | Copied | TypeChanged | Unmerged | Unknown(code: char)

  datatype DiffEntry = DiffEntry(change: ChangeType, path: string, oldPath: Option<string>)

  function ChangeOf(c: char): ChangeType {
    match c
    case 'A' => Added
    case 'M' => Modified
    case 'D' => Deleted
    case 'R' => Renamed
    case 'C' => Copied
    case 'T' => TypeChanged
    case 'U' => Unmerged
    case other => Unknown(other)
  }

  function LetterOf(t: ChangeType): char {
    match t
    case Added => 'A'
    case Modified => 'M'
    case Deleted => 'D'
    case Renamed => 'R'
    case Copied => 'C'
    case TypeChanged => 'T'
    case Unmerged => 'U'
    case Unknown(c) => c
  }

  function DiffLine(line: string): Option<DiffEntry> {
    var parts := Split(TrimEnd(line), '\t');
    var change := ChangeOf(if parts[0] == "" then '?' else parts[0][0]);
    if TrimEnd(line) == "" then None else Described(change, parts)
  }

  function Described(change: ChangeType, parts: seq<string>): Option<DiffEntry> {
    if change.Renamed? || change.Copied? then
      if |parts| >= 3 then Some(DiffEntry(change, parts[2], Some(parts[1]))) else None
    else
      if |parts| >= 2 then Some(DiffEntry(change, parts[1], None)) else None
  }

  function AsSeq<T>(o: Option<T>): seq<T> {
    if o.Some? then [o.value] else []
  }

  function DiffLines(lines: seq<string>): seq<DiffEntry> {
    if |lines| == 0 then [] else AsSeq(DiffLine(lines[0])) + DiffLines(lines[1..])
  }

  /** The first n lines have been turned into `out`. */
  ghost predicate Read(lines: seq<string>, n: nat, out: seq<DiffEntry>) {
    n <= |lines| && out + DiffLines(lines[n..]) == DiffLines(lines)
  }

  lemma ReadOne(lines: seq<string>, n: nat, out: seq<DiffEntry>)
    requires n < |lines| && Read(lines, n, out)
    ensures Read(lines, n + 1, out + AsSeq(DiffLine(lines[n])))
  {
    hide DiffLine, AsSeq;
    assert lines[n..][0] == lines[n] && lines[n..][1..] == lines[n + 1..];
    var now, rest := AsSeq(DiffLine(lines[n])), DiffLines(lines[n + 1..]);
    assert out + (now + rest) == (out + now) + rest;
  }

  method ParseNameStatus(output: string) returns (out: seq<DiffEntry>)
    ensures out == DiffLines(Lines(output))
  {
    out := [];
    var lines := Lines(output);
    var n := 0;
    assert Read(lines, 0, out);
    while n < |lines|
      invariant 0 <= n <= |lines| && Read(lines, n, out)
    {
      ReadOne(lines, n, out);
      assert out + [] == out;
      hide Read, Split, TrimEnd, DiffLines, Lines, ChangeOf;
      var line := TrimEnd(lines[n]);
      n := n + 1;
      if line == "" {
        continue;
      }
      var parts := Split(line, '\t');
      var change := ChangeOf(if parts[0] == "" then '?' else parts[0][0]);
      match change {
        case Renamed =>
          if |parts| >= 3 {
            out := out + [DiffEntry(change, parts[2], Some(parts[1]))];
          }
        case Copied =>
          if |parts| >= 3 {
            out := out + [DiffEntry(change, parts[2], Some(parts[1]))];
          }
        case _ =>
          if |parts| >= 2 {
            out := out + [DiffEntry(change, parts[1], None)];
          }
      }
    }
  }

  predicate NeedsOld(t: ChangeType) {
    t.Renamed? || t.Copied?
  }

  /** A path git prints without quoting it: it has no control characters. */
  ghost predicate Unquoted(path: string) {
    path != "" && forall c :: c in path ==> c != '\t' && c != '\n' && c != '\r'
  }

  /** The letters git has a meaning for here. */
  const LETTERS := "AMDRCTU"

  /** An unknown change is one with another letter. */
  predicate ProperChange(t: ChangeType) {
    t.Unknown? ==> t.code !in LETTERS && !IsSpace(t.code)
  }

  lemma LettersListed(c: char)
    ensures c in LETTERS <==> c == 'A' || c == 'M' || c == 'D' || c == 'R' || c == 'C' || c == 'T' || c == 'U'
  {
  }

  /** Every change is read from the letter it is printed with. */
  lemma LetterRoundTrip(t: ChangeType)
    requires ProperChange(t)
    ensures ChangeOf(LetterOf(t)) == t && !IsSpace(LetterOf(t))
  {
    LettersListed(LetterOf(t));
  }

  /** And every letter is read as the change it stands for. */
  lemma LettersMean(c: char)
    ensures LetterOf(ChangeOf(c)) == c && (ChangeOf(c).Unknown? <==> c !in LETTERS)
    ensures ChangeOf('A') == Added && ChangeOf('M') == Modified && ChangeOf('D') == Deleted && ChangeOf('R') == Renamed
    ensures ChangeOf('C') == Copied && ChangeOf('T') == TypeChanged && ChangeOf('U') == Unmerged
  {
    LettersListed(c);
  }

  ghost predicate Printable(e: DiffEntry) {
    && Unquoted(e.path)
    && ProperChange(e.change)
    && (NeedsOld(e.change) <==> e.oldPath.Some?)
    && (e.oldPath.Some? ==> Unquoted(e.oldPath.value))
  }

  /** One line of output; a similarity score follows the letter of a rename or a copy. */
  function DiffText(e: DiffEntry, score: string): string {
    [LetterOf(e.change)] + score + ['\t'] + (if e.oldPath.Some? then e.oldPath.value + ['\t'] else []) + e.path
  }

  function DiffTexts(es: seq<DiffEntry>, scores: seq<string>): (r: seq<string>)
    requires |scores| == |es|
    ensures |r| == |es|
    ensures forall i :: 0 <= i < |es| ==> r[i] == DiffText(es[i], scores[i])
  {
    if |es| == 0 then [] else [DiffText(es[0], scores[0])] + DiffTexts(es[1..], scores[1..])
  }

  /** What is left of an entry: the end of its path is trimmed, and an entry whose path is blank is lost. */
  function Surviving(e: DiffEntry): Option<DiffEntry> {
    if TrimEnd(e.path) == "" then None else Some(e.(path := TrimEnd(e.path)))
  }

  function Survivors(es: seq<DiffEntry>): seq<DiffEntry> {
    if |es| == 0 then [] else AsSeq(Surviving(es[0])) + Survivors(es[1..])
  }

  ghost predicate Score(s: string) {
    AllDigits(s)
  }

  lemma CodePlain(letter: char, score: string)
    requires Score(score) && !IsSpace(letter)
    ensures '\t' !in [letter] + score
  {
    assert forall c :: c in score ==> IsDigit(c);
  }

  lemma PrefixPlain(a: string, b: string, c: char)
    requires a <= b && c !in b
    ensures c !in a
  {
    assert forall i :: 0 <= i < |a| ==> a[i] == b[i];
  }

  lemma DiffLineShort(e: DiffEntry, score: string)
    requires Printable(e) && Score(score) && e.oldPath.None?
    ensures DiffLine(DiffText(e, score)) == Surviving(e)
  {
    var code := [LetterOf(e.change)] + score;
    LetterRoundTrip(e.change);
    CodePlain(LetterOf(e.change), score);
    var head := code + ['\t'];
    assert DiffText(e, score) == head + e.path;
    TrimEndTail(head, e.path);
    hide TrimEnd;
    PrefixPlain(TrimEnd(e.path), e.path, '\t');
    SplitPlain(code, '\t');
    if TrimEnd(e.path) == "" {
      TrimEndOfBlank(code, ['\t']);
      PrefixPlain(TrimEnd(head), code, '\t');
      SplitPlain(TrimEnd(head), '\t');
    } else {
      var path := TrimEnd(e.path);
      SplitAt(code, path, '\t');
      SplitPlain(path, '\t');
    }
  }

  lemma DiffLineLong(e: DiffEntry, score: string)
    requires Printable(e) && Score(score) && e.oldPath.Some?
    ensures DiffLine(DiffText(e, score)) == Surviving(e)
  {
    var code, was := [LetterOf(e.change)] + score, e.oldPath.value;
    LetterRoundTrip(e.change);
    CodePlain(LetterOf(e.change), score);
    var line := code + ['\t'] + was;
    assert DiffText(e, score) == (line + ['\t']) + e.path;
    TrimEndTail(line + ['\t'], e.path);
    hide TrimEnd;
    PrefixPlain(TrimEnd(e.path), e.path, '\t');
    SplitPlain(code, '\t');
    if TrimEnd(e.path) == "" {
      TrimEndOfBlank(line, ['\t']);
      TwoPartsAtMost(code, was);
    } else {
      var path := TrimEnd(e.path);
      SplitAt(line, path, '\t');
      SplitAt(code, was, '\t');
      SplitPlain(path, '\t');
      SplitPlain(was, '\t');
    }
  }

  lemma TwoPartsAtMost(code: string, was: string)
    requires code != "" && '\t' !in code && '\t' !in was && !IsSpace(code[0])
    ensures var parts := Split(TrimEnd(code + ['\t'] + was), '\t');
            |parts| <= 2 && parts[0] != "" && parts[0][0] == code[0]
    ensures TrimEnd(code + ['\t'] + was) != ""
  {
    TrimEndTail(code + ['\t'], was);
    TrimEndOfBlank(code, ['\t']);
    assert TrimEnd(code) != "" by {
      assert !AllSpace(code);
    }
    if TrimEnd(was) == "" {
      SplitPlain(TrimEnd(code), '\t');
    } else {
      SplitAt(code, TrimEnd(was), '\t');
      SplitPlain(code, '\t');
      SplitPlain(TrimEnd(was), '\t');
    }
  }

  ghost predicate AllPrintable(es: seq<DiffEntry>, scores: seq<string>) {
    |scores| == |es| && forall i :: 0 <= i < |es| ==> Printable(es[i]) && Score(scores[i])
  }

  lemma {:induction false} DiffTextsSurvive(es: seq<DiffEntry>, scores: seq<string>)
    requires AllPrintable(es, scores)
    ensures DiffLines(DiffTexts(es, scores)) == Survivors(es)
  {
    if |es| > 0 {
      if es[0].oldPath.None? {
        DiffLineShort(es[0], scores[0]);
      } else {
        DiffLineLong(es[0], scores[0]);
      }
      DiffTextsSurvive(es[1..], scores[1..]);
    }
  }

  lemma DiffTextClean(e: DiffEntry, score: string)
    requires Printable(e) && Score(score)
    ensures CleanLine(DiffText(e, score))
  {
    LetterRoundTrip(e.change);
    CodePlain(LetterOf(e.change), score);
    var s := DiffText(e, score);
    assert s[|s| - 1] == e.path[|e.path| - 1];
    assert e.path[|e.path| - 1] in e.path;
    assert '\n' !in score;
  }

  ghost predicate EndsVisibly(e: DiffEntry) {
    e.path != "" && !IsSpace(e.path[|e.path| - 1])
  }

  lemma VisibleSurvives(e: DiffEntry)
    ensures Surviving(e) == Some(e) <==> EndsVisibly(e)
  {}

  lemma {:induction false} AllSurvive(es: seq<DiffEntry>)
    ensures |Survivors(es)| <= |es|
    ensures Survivors(es) == es <==> forall e :: e in es ==> EndsVisibly(e)
  {
    if |es| > 0 {
      var e, rest := es[0], es[1..];
      AllSurvive(rest);
      VisibleSurvives(e);
      hide Surviving, EndsVisibly;
      assert es == [e] + rest;
      var s := Surviving(e);
      if s.Some? {
        assert Survivors(es) == [s.value] + Survivors(rest);
        assert Survivors(es)[1..] == Survivors(rest);
      }
    }
  }

  /**
   * A printed list of changes is read back with the ends of its paths trimmed, so it comes back unchanged
   * exactly when no path ends in white space.
   */
  lemma NameStatusRoundTrip(es: seq<DiffEntry>, scores: seq<string>)
    requires AllPrintable(es, scores)
    ensures var read := DiffLines(Lines(Unlines(DiffTexts(es, scores))));
            && read == Survivors(es)
            && (read == es <==> forall e :: e in es ==> EndsVisibly(e))
  {
    var texts := DiffTexts(es, scores);
    forall i | 0 <= i < |texts|
      ensures CleanLine(texts[i])
    {
      DiffTextClean(es[i], scores[i]);
    }
    LinesUnlines(texts, "");
    assert Unlines(texts) + "" == Unlines(texts);
    assert texts + Lines("") == texts;
    DiffTextsSurvive(es, scores);
    AllSurvive(es);
  }
}
