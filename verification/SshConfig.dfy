/** Rewriting the block of one host alias in an SSH configuration file. */
module SshConfig {
  import opened Options
  import opened Text

  function HostMarker(alias: string): string {
    "Host " + alias
  }

  /** A line that names the alias, with any white space around it. */
  predicate Names(alias: string, line: string) {
    Trim(line) == HostMarker(alias)
  }

  /** An unindented line with something on it: what ends the block before it. */
  predicate EndsBlock(line: string) {
    line != "" && line[0] != ' ' && line[0] != '\t' && Trim(line) != ""
  }

  /** Line i belongs to a block of the alias: a line naming it stands at or above i, and no line between ends it. */
  ghost predicate InBlock(alias: string, lines: seq<string>, i: int) {
    exists j :: Opens(alias, lines, j, i)
  }

  ghost predicate Opens(alias: string, lines: seq<string>, j: int, i: int) {
    0 <= j <= i < |lines| && Names(alias, lines[j]) && forall k :: j < k <= i ==> !EndsBlock(lines[k])
  }

  lemma InBlockNext(alias: string, lines: seq<string>, i: nat)
    requires i < |lines|
    ensures InBlock(alias, lines, i) <==>
            Names(alias, lines[i]) || (InBlock(alias, lines, i - 1) && !EndsBlock(lines[i]))
  {
    hide Names, EndsBlock;
    if Names(alias, lines[i]) {
      assert Opens(alias, lines, i, i);
    } else if InBlock(alias, lines, i - 1) && !EndsBlock(lines[i]) {
      var j :| Opens(alias, lines, j, i - 1);
      assert Opens(alias, lines, j, i);
    }
    if InBlock(alias, lines, i) {
      var j :| Opens(alias, lines, j, i);
      assert j == i || Opens(alias, lines, j, i - 1);
    }
  }

  /** The lines among the first n that belong to no block of the alias, in order. */
  ghost function Others(alias: string, lines: seq<string>, n: nat): seq<string>
    requires n <= |lines|
  {
    if n == 0 then []
    else Others(alias, lines, n - 1) + if InBlock(alias, lines, n - 1) then [] else [lines[n - 1]]
  }

  ghost function Replaced(config: string, alias: string, newBlock: string): string {
    Unlines(Others(alias, Lines(config), |Lines(config)|)) + newBlock
  }

  lemma OthersNext(alias: string, lines: seq<string>, n: nat)
    requires n < |lines|
    ensures Unlines(Others(alias, lines, n + 1))
            == Unlines(Others(alias, lines, n)) + (if InBlock(alias, lines, n) then "" else lines[n] + "\n")
  {
    var before := Others(alias, lines, n);
    if InBlock(alias, lines, n) {
      assert before + [] == before;
      assert Unlines(before) + "" == Unlines(before);
    } else {
      UnlinesConcat(before, [lines[n]]);
      assert Unlines([lines[n]]) == lines[n] + "\n" + Unlines([]);
      assert lines[n] + "\n" + "" == lines[n] + "\n";
    }
  }

  /** The loop's tests amount to the two line predicates: a line that starts with "Host " ends a block anyway. */
  lemma HostEndsBlock(line: string)
    requires "Host " <= line
    ensures EndsBlock(line)
  {
    assert line[0] == 'H' && !AllSpace(line);
    TrimmedEmpty(line);
  }

  lemma TrimmedEmpty(line: string)
    ensures Trim(line) == "" ==> AllSpace(line)
  {
    hide Trim, IsSpace;
    var pre, post := TrimParts(line);
    assert AllSpace(pre + post);
    assert pre + "" + post == pre + post;
  }

  method ReplaceHostBlock(config: string, alias: string, newBlock: string) returns (result: string)
    ensures result == Replaced(config, alias, newBlock)
  {
    var hostMarker := HostMarker(alias);
    var lines := Lines(config);
    result := "";
    var skip := false;
    var n := 0;
    while n < |lines|
      invariant 0 <= n <= |lines|
      invariant skip == InBlock(alias, lines, n - 1)
      invariant result == Unlines(Others(alias, lines, n))
    {
      var line := lines[n];
      InBlockNext(alias, lines, n);
      OthersNext(alias, lines, n);
      hide InBlock, Others, Unlines, Trim, Lines;
      n := n + 1;
      if Trim(line) == hostMarker {
        skip := true;
        continue;
      }
      if skip {
        if "Host " <= line {
          HostEndsBlock(line);
        }
        if "Host " <= line || (!(" " <= line) && !("\t" <= line) && Trim(line) != "") {
          BlankIsEmpty(line);
          skip := false;
          result := result + (line + "\n");
        }
        continue;
      }
      result := result + (line + "\n");
    }
    result := result + newBlock;
  }

  lemma BlankIsEmpty(line: string)
    ensures line == "" ==> Trim(line) == ""
    ensures (" " <= line <==> line != "" && line[0] == ' ') && ("\t" <= line <==> line != "" && line[0] == '\t')
  {}

  // ---------------------------------------------------------------- the block that is written

  datatype Setting = Setting(keyword: string, value: string)

  function SettingLine(s: Setting): string {
    "    " + s.keyword + " " + s.value
  }

  function SettingLines(settings: seq<Setting>): (r: seq<string>)
    ensures |r| == |settings|
    ensures forall i :: 0 <= i < |r| ==> r[i] == SettingLine(settings[i])
  {
    if |settings| == 0 then [] else [SettingLine(settings[0])] + SettingLines(settings[1..])
  }

  /** A block as it is written: an empty line, the host line, and indented settings. */
  function BlockLines(alias: string, settings: seq<Setting>): seq<string> {
    ["", HostMarker(alias)] + SettingLines(settings)
  }

  function Block(alias: string, settings: seq<Setting>): string {
    Unlines(BlockLines(alias, settings))
  }

  function TunnelSettings(port: nat, key: string, nullKnownHosts: string): seq<Setting> {
    [Setting("HostName", "127.0.0.1"), Setting("Port", NatText(port)), Setting("User", "vk"),
     Setting("IdentityFile", key), Setting("StrictHostKeyChecking", "no"),
     Setting("UserKnownHostsFile", nullKnownHosts)]
  }

  predicate Written(s: string) {
    CleanLine(s) && !AllSpace(s)
  }

  ghost predicate Plain(s: Setting) {
    PlainKeyword(s.keyword) && Written(s.value)
  }

  predicate PlainKeyword(keyword: string) {
    keyword != "" && keyword != "Host" && forall i :: 0 <= i < |keyword| ==> !IsSpace(keyword[i])
  }

  lemma TunnelKeywordsArePlain()
    ensures PlainKeyword("HostName") && PlainKeyword("Port") && PlainKeyword("User") && PlainKeyword("IdentityFile")
    ensures PlainKeyword("StrictHostKeyChecking") && PlainKeyword("UserKnownHostsFile")
  {
    assert "Port"[0] == 'P' && "Host"[0] == 'H' && "User"[0] == 'U';
  }

  lemma TunnelValuesAreWritten(port: nat)
    ensures Written("127.0.0.1") && Written("vk") && Written("no") && Written(NatText(port))
  {
    assert "127.0.0.1"[0] == '1' && "vk"[0] == 'v' && "no"[0] == 'n';
    var s := NatText(port);
    assert IsDigit(s[0]) && IsDigit(s[|s| - 1]);
  }

  ghost predicate WellFormed(alias: string, settings: seq<Setting>) {
    && alias != "" && Tight(alias) && CleanLine(alias)
    && forall i :: 0 <= i < |settings| ==> Plain(settings[i])
  }

  lemma TunnelSettingsArePlain(port: nat, key: string, nullKnownHosts: string)
    requires Written(key) && Written(nullKnownHosts)
    ensures forall i :: 0 <= i < 6 ==> Plain(TunnelSettings(port, key, nullKnownHosts)[i])
  {
    TunnelKeywordsArePlain();
    TunnelValuesAreWritten(port);
    hide Written, PlainKeyword, NatText;
  }

  /** A setting is one indented line and names no host. */
  lemma SettingIsIndented(alias: string, s: Setting)
    requires Plain(s)
    ensures CleanLine(SettingLine(s)) && !EndsBlock(SettingLine(s)) && !Names(alias, SettingLine(s))
  {
    var line := SettingLine(s);
    assert line[0] == ' ' && line[|line| - 1] == s.value[|s.value| - 1];
    assert CleanLine(line);
    TrimSetting(s);
    OtherMarker(alias, s.keyword, TrimEnd(s.value));
  }

  lemma OtherMarker(alias: string, keyword: string, value: string)
    requires keyword != "Host" && ' ' !in keyword
    ensures keyword + [' '] + value != HostMarker(alias)
  {
    assert HostMarker(alias) == "Host" + [' '] + alias;
    if keyword + [' '] + value == "Host" + [' '] + alias {
      FirstCut(keyword, value, "Host", alias, ' ');
    }
  }

  lemma TrimSetting(s: Setting)
    requires Plain(s)
    ensures Trim(SettingLine(s)) == s.keyword + [' '] + TrimEnd(s.value)
  {
    var head := "    " + s.keyword + " ";
    TrimEndNonEmpty(s.value);
    TrimEndTail(head, s.value);
    assert SettingLine(s) == head + s.value;
    hide TrimEnd, TrimStart;
    var core := s.keyword + [' '] + TrimEnd(s.value);
    assert head + TrimEnd(s.value) == "    " + core;
    assert core[0] in s.keyword;
    TrimStartPadded("    ", core);
  }

  lemma TrimEndNonEmpty(s: string)
    requires !AllSpace(s)
    ensures TrimEnd(s) != ""
  {
    var e := TrimEnd(s);
    assert s == e + s[|e|..];
  }

  lemma MarkerIsClean(alias: string)
    requires alias != "" && Tight(alias) && CleanLine(alias)
    ensures CleanLine(HostMarker(alias)) && Names(alias, HostMarker(alias)) && EndsBlock(HostMarker(alias))
  {
    var line := HostMarker(alias);
    assert line[|line| - 1] == alias[|alias| - 1];
    TrimIsTight(line);
    HostEndsBlock(line);
  }

  // ---------------------------------------------------------------- what stays and what goes

  /** What a rewrite keeps of a file, as the next reader sees its lines. */
  ghost function Base(config: string, alias: string): seq<string> {
    DropCrs(Others(alias, Lines(config), |Lines(config)|))
  }

  ghost function Updated(config: string, alias: string, settings: seq<Setting>): string {
    Replaced(config, alias, Block(alias, settings))
  }

  lemma {:induction false} OthersAreLines(alias: string, lines: seq<string>, n: nat)
    requires n <= |lines|
    ensures forall l :: l in Others(alias, lines, n) ==> l in lines && !Names(alias, l)
  {
    if n > 0 {
      OthersAreLines(alias, lines, n - 1);
      InBlockNext(alias, lines, n - 1);
    }
  }

  lemma BlockIsClean(alias: string, settings: seq<Setting>)
    requires WellFormed(alias, settings)
    ensures forall l :: l in BlockLines(alias, settings) ==> CleanLine(l)
  {
    MarkerIsClean(alias);
    forall i | 0 <= i < |settings|
      ensures CleanLine(SettingLine(settings[i]))
    {
      SettingIsIndented(alias, settings[i]);
    }
  }

  /** After a rewrite the file reads as what was kept, followed by the new block. */
  lemma UpdatedLines(config: string, alias: string, settings: seq<Setting>)
    requires WellFormed(alias, settings)
    ensures Lines(Updated(config, alias, settings)) == Base(config, alias) + BlockLines(alias, settings)
  {
    var lines, block := Lines(config), BlockLines(alias, settings);
    var kept := Others(alias, lines, |lines|);
    LinesPlain(config);
    OthersAreLines(alias, lines, |lines|);
    forall i | 0 <= i < |kept|
      ensures '\n' !in kept[i]
    {
      assert kept[i] in kept;
    }
    LinesUnlinesAny(kept, Unlines(block));
    BlockIsClean(alias, settings);
    LinesUnlines(block, "");
    assert Unlines(block) + "" == Unlines(block);
    assert block + Lines("") == block;
  }

  lemma DropCrNeutral(alias: string, line: string)
    ensures Names(alias, DropCr(line)) == Names(alias, line)
    ensures EndsBlock(DropCr(line)) == EndsBlock(line)
  {
    var d := DropCr(line);
    if d != line {
      assert line == d + "\r";
      TrimEndOfBlank(d, "\r");
      assert Trim(line) == Trim(d);
    }
  }

  lemma BaseNamesNobody(config: string, alias: string)
    ensures forall l :: l in Base(config, alias) ==> !Names(alias, l)
  {
    var lines := Lines(config);
    var kept := Others(alias, lines, |lines|);
    OthersAreLines(alias, lines, |lines|);
    forall i | 0 <= i < |kept|
      ensures !Names(alias, Base(config, alias)[i])
    {
      assert kept[i] in kept;
      DropCrsAt(kept, i);
      DropCrNeutral(alias, kept[i]);
    }
  }

  lemma BlockNamesOnce(alias: string, settings: seq<Setting>)
    requires WellFormed(alias, settings)
    ensures |BlockLines(alias, settings)| >= 2
    ensures forall i :: 0 <= i < |BlockLines(alias, settings)| ==> (Names(alias, BlockLines(alias, settings)[i]) <==> i == 1)
  {
    MarkerIsClean(alias);
    NoEmptyName(alias);
    hide Names;
    var block := BlockLines(alias, settings);
    forall i | 0 <= i < |block|
      ensures Names(alias, block[i]) <==> i == 1
    {
      if i >= 2 {
        assert block[i] == SettingLine(settings[i - 2]);
        SettingIsIndented(alias, settings[i - 2]);
      }
    }
  }

  lemma NoEmptyName(alias: string)
    ensures !Names(alias, "")
  {
    BlankIsEmpty("");
  }

  /** Afterwards exactly one line names the alias: the host line of the new block. */
  lemma NamedExactlyOnce(config: string, alias: string, settings: seq<Setting>)
    requires WellFormed(alias, settings)
    ensures var lines := Lines(Updated(config, alias, settings));
            forall i :: 0 <= i < |lines| ==> (Names(alias, lines[i]) <==> i == |Base(config, alias)| + 1)
  {
    hide Names, BlockLines, Base, Updated, WellFormed;
    UpdatedLines(config, alias, settings);
    BaseNamesNobody(config, alias);
    BlockNamesOnce(alias, settings);
    var base, block := Base(config, alias), BlockLines(alias, settings);
    forall i | 0 <= i < |base + block|
      ensures Names(alias, (base + block)[i]) <==> i == |base| + 1
    {
      assert i < |base| ==> base[i] in base;
      assert i >= |base| ==> (base + block)[i] == block[i - |base|];
    }
  }

  /** A run of lines outside every block of the alias stays together, and what comes later stays behind it. */
  lemma {:induction false} RunKept(alias: string, lines: seq<string>, i: nat, n: nat)
    requires i <= n <= |lines| && forall k :: i <= k < n ==> !InBlock(alias, lines, k)
    ensures Others(alias, lines, n) == Others(alias, lines, i) + lines[i..n]
    decreases n
  {
    if i < n {
      RunKept(alias, lines, i, n - 1);
      assert lines[i..n] == lines[i..n - 1] + [lines[n - 1]];
    }
  }

  lemma {:induction false} OthersGrow(alias: string, lines: seq<string>, i: nat, n: nat)
    requires i <= n <= |lines|
    ensures Others(alias, lines, i) <= Others(alias, lines, n)
    decreases n
  {
    if i < n {
      OthersGrow(alias, lines, i, n - 1);
    }
  }

  /**
   * A block opened by an unindented line and not naming the alias is kept whole and in one piece, whatever
   * stands before it.
   */
  lemma OtherBlockSurvives(alias: string, lines: seq<string>, i: nat, n: nat)
    requires i < n <= |lines| && EndsBlock(lines[i])
    requires forall k :: i <= k < n ==> !Names(alias, lines[k])
    ensures Others(alias, lines, i) + lines[i..n] <= Others(alias, lines, |lines|)
  {
    forall k | i <= k < n
      ensures !InBlock(alias, lines, k)
    {
      OutOfReach(alias, lines, i, k);
    }
    RunKept(alias, lines, i, n);
    OthersGrow(alias, lines, n, |lines|);
  }

  lemma {:induction false} OutOfReach(alias: string, lines: seq<string>, i: nat, k: nat)
    requires i <= k < |lines| && EndsBlock(lines[i])
    requires forall j :: i <= j <= k ==> !Names(alias, lines[j])
    ensures !InBlock(alias, lines, k)
  {
    InBlockNext(alias, lines, k);
    if k > i {
      OutOfReach(alias, lines, i, k - 1);
    }
  }

  /** Lines before the first line that names the alias are all kept. */
  lemma UnnamedKept(alias: string, lines: seq<string>, n: nat)
    requires n <= |lines| && forall k :: 0 <= k < n ==> !Names(alias, lines[k])
    ensures Others(alias, lines, n) == lines[..n]
  {
    hide Names, EndsBlock;
    assert forall k :: 0 <= k < n ==> !InBlock(alias, lines, k);
    RunKept(alias, lines, 0, n);
    assert Others(alias, lines, 0) == [];
    assert [] + lines[0..n] == lines[..n];
  }

  /** From the alias's host line on, indented lines all go. */
  lemma {:induction false} BlockDropped(alias: string, lines: seq<string>, m: nat, n: nat)
    requires m < n <= |lines| && Names(alias, lines[m])
    requires forall k :: m < k < n ==> !EndsBlock(lines[k])
    ensures Others(alias, lines, n) == Others(alias, lines, m)
    decreases n
  {
    hide Names, EndsBlock;
    assert Opens(alias, lines, m, n - 1);
    if m < n - 1 {
      BlockDropped(alias, lines, m, n - 1);
    }
  }

  /**
   * Updating the alias a second time keeps everything the first update kept, replaces the block, and leaves
   * one empty line more.
   */
  lemma SecondUpdate(config: string, alias: string, first: seq<Setting>, second: seq<Setting>)
    requires WellFormed(alias, first) && WellFormed(alias, second)
    ensures var again := Updated(Updated(config, alias, first), alias, second);
            Lines(again) == DropCrs(Base(config, alias)) + [""] + BlockLines(alias, second)
  {
    var once := Updated(config, alias, first);
    UpdatedLines(config, alias, first);
    UpdatedLines(once, alias, second);
    BaseOfUpdated(config, alias, first);
    DropCrsConcat(Base(config, alias), [""]);
    assert DropCrs([""]) == [""];
  }

  lemma BaseOfUpdated(config: string, alias: string, settings: seq<Setting>)
    requires WellFormed(alias, settings)
    requires Lines(Updated(config, alias, settings)) == Base(config, alias) + BlockLines(alias, settings)
    ensures Base(Updated(config, alias, settings), alias) == DropCrs(Base(config, alias) + [""])
  {
    BaseNamesNobody(config, alias);
    OthersOfBlock(alias, Base(config, alias), settings);
  }

  lemma OthersOfBlock(alias: string, base: seq<string>, settings: seq<Setting>)
    requires WellFormed(alias, settings) && forall l :: l in base ==> !Names(alias, l)
    ensures var lines := base + BlockLines(alias, settings); Others(alias, lines, |lines|) == base + [""]
  {
    BlockNamesOnce(alias, settings);
    var block := BlockLines(alias, settings);
    forall k | 1 < k < |block|
      ensures !EndsBlock(block[k])
    {
      assert block[k] == SettingLine(settings[k - 2]);
      SettingIsIndented(alias, settings[k - 2]);
    }
    OthersOfOneBlock(alias, base, block);
  }

  lemma OthersOfOneBlock(alias: string, base: seq<string>, block: seq<string>)
    requires forall l :: l in base ==> !Names(alias, l)
    requires |block| >= 2 && block[0] == "" && !Names(alias, "") && Names(alias, block[1])
    requires forall k :: 1 < k < |block| ==> !EndsBlock(block[k])
    ensures Others(alias, base + block, |base + block|) == base + [""]
  {
    hide Names, EndsBlock, Others;
    var lines := base + block;
    var m := |base| + 1;
    assert lines[..m] == base + [""];
    forall k | 0 <= k < m
      ensures !Names(alias, lines[k])
    {
      assert k < |base| ==> lines[k] in base;
    }
    UnnamedKept(alias, lines, m);
    assert lines[m] == block[1];
    forall k | m < k < |lines|
      ensures !EndsBlock(lines[k])
    {
      assert lines[k] == block[k - |base|];
    }
    BlockDropped(alias, lines, m, |lines|);
  }

  ghost function UpdatedAll(config: string, alias: string, list: seq<seq<Setting>>): string {
    if |list| == 0 then config else Updated(UpdatedAll(config, alias, list[..|list| - 1]), alias, list[|list| - 1])
  }

  function EmptyLines(n: nat): seq<string> {
    if n == 0 then [] else EmptyLines(n - 1) + [""]
  }

  lemma {:induction false} EmptyLinesClean(n: nat)
    ensures forall l :: l in EmptyLines(n) ==> l == ""
  {
    if n > 0 {
      EmptyLinesClean(n - 1);
    }
  }

  /** However often the tunnel's port changes, all that accumulates is one empty line an update. */
  lemma {:induction false} ManyUpdates(config: string, alias: string, list: seq<seq<Setting>>)
    requires |list| > 0 && forall i :: 0 <= i < |list| ==> WellFormed(alias, list[i])
    requires forall l :: l in Base(config, alias) ==> CleanLine(l)
    ensures Lines(UpdatedAll(config, alias, list))
            == Base(config, alias) + EmptyLines(|list| - 1) + BlockLines(alias, list[|list| - 1])
  {
    BaseOfMany(config, alias, list[..|list| - 1]);
    UpdatedLines(UpdatedAll(config, alias, list[..|list| - 1]), alias, list[|list| - 1]);
  }

  lemma {:induction false} BaseOfMany(config: string, alias: string, list: seq<seq<Setting>>)
    requires forall i :: 0 <= i < |list| ==> WellFormed(alias, list[i])
    requires forall l :: l in Base(config, alias) ==> CleanLine(l)
    ensures Base(UpdatedAll(config, alias, list), alias) == Base(config, alias) + EmptyLines(|list|)
    decreases |list|
  {
    hide Base, Updated, WellFormed;
    var base := Base(config, alias);
    if |list| == 0 {
      assert base + [] == base;
    } else {
      var shorter := list[..|list| - 1];
      var before := UpdatedAll(config, alias, shorter);
      BaseOfMany(config, alias, shorter);
      UpdatedLines(before, alias, list[|list| - 1]);
      BaseOfUpdated(before, alias, list[|list| - 1]);
      EmptyLinesClean(|list| - 1);
      var kept := base + EmptyLines(|list| - 1);
      forall i | 0 <= i < |kept + [""]|
        ensures CleanLine((kept + [""])[i])
      {
        var l := (kept + [""])[i];
        assert l == "" || l in base || l in EmptyLines(|list| - 1);
      }
      DropCrsClean(kept + [""]);
      assert kept + [""] == base + EmptyLines(|list|);
    }
  }

  // ---------------------------------------------------------------- what a reader finds

  /** A line's keyword and value: what stands before its first space, and what follows, both ends trimmed. */
  function SettingOf(line: string): Option<Setting> {
    var text := Trim(line);
    var keyword := Split(text, ' ')[0];
    if |keyword| < |text| then Some(Setting(keyword, text[|keyword| + 1..])) else None
  }

  /** The value of the first such setting at or after line i, before the block ends. */
  function ValueFrom(lines: seq<string>, i: nat, keyword: string): Option<string>
    requires i <= |lines|
    decreases |lines| - i
  {
    if i == |lines| || EndsBlock(lines[i]) then None
    else
      var s := SettingOf(lines[i]);
      if s.Some? && s.value.keyword == keyword then Some(s.value.value) else ValueFrom(lines, i + 1, keyword)
  }

  predicate ReadsHost(line: string, alias: string) {
    Trim(line) == "Host " + alias
  }

  lemma HostsAreNames(alias: string)
    ensures forall line :: ReadsHost(line, alias) <==> Names(alias, line)
  {
  }

  /** The position of the first line, at or after i, that names the host. */
  function HostFrom(lines: seq<string>, i: nat, alias: string): (r: Option<nat>)
    requires i <= |lines|
    ensures r.Some? ==> i <= r.value < |lines|
    decreases |lines| - i
  {
    if i == |lines| then None else if ReadsHost(lines[i], alias) then Some(i) else HostFrom(lines, i + 1, alias)
  }

  /** Reading a file: the first value of a keyword under the host. */
  function ReadValue(file: string, alias: string, keyword: string): Option<string> {
    var lines := Lines(file);
    var host := HostFrom(lines, 0, alias);
    if host.None? then None else ValueFrom(lines, host.value + 1, keyword)
  }

  lemma ReadsSetting(s: Setting)
    requires Plain(s)
    ensures SettingOf(SettingLine(s)) == Some(Setting(s.keyword, TrimEnd(s.value)))
  {
    TrimSetting(s);
    var value := TrimEnd(s.value);
    var text := s.keyword + [' '] + value;
    assert ' ' !in s.keyword by {
      assert forall i :: 0 <= i < |s.keyword| ==> !IsSpace(s.keyword[i]);
    }
    SplitAt(s.keyword, value, ' ');
    SplitPlain(s.keyword, ' ');
    assert text[|s.keyword| + 1..] == value;
  }

  lemma {:induction false} HostIsAt(lines: seq<string>, i: nat, at: nat, alias: string)
    requires i <= at < |lines| && forall k :: i <= k <= at ==> (ReadsHost(lines[k], alias) <==> k == at)
    ensures HostFrom(lines, i, alias) == Some(at)
    decreases at - i
  {
    hide ReadsHost;
    if i < at {
      HostIsAt(lines, i + 1, at, alias);
    }
  }

  /** A line that is a setting is read as one, or passed over for the next. */
  lemma ValueStep(lines: seq<string>, i: nat, s: Setting, keyword: string)
    requires i < |lines| && Plain(s) && lines[i] == SettingLine(s)
    ensures ValueFrom(lines, i, keyword) == if s.keyword == keyword then Some(TrimEnd(s.value)) else ValueFrom(lines, i + 1, keyword)
  {
    SettingIsIndented("x", s);
    ReadsSetting(s);
    hide Plain, EndsBlock, SettingOf, TrimEnd, SettingLine, Names;
  }

  lemma {:induction false} ValueIsFound(base: seq<string>, settings: seq<Setting>, k: nat, n: nat)
    requires k <= n < |settings| && forall i :: 0 <= i < |settings| ==> Plain(settings[i])
    requires forall i :: 0 <= i < n ==> settings[i].keyword != settings[n].keyword
    ensures var lines := base + SettingLines(settings);
            ValueFrom(lines, |base| + k, settings[n].keyword) == Some(TrimEnd(settings[n].value))
    decreases n - k
  {
    hide Plain, TrimEnd, ValueFrom, SettingLine;
    var lines := base + SettingLines(settings);
    assert lines[|base| + k] == SettingLine(settings[k]);
    ValueStep(lines, |base| + k, settings[k], settings[n].keyword);
    if k < n {
      ValueIsFound(base, settings, k + 1, n);
    }
  }

  /** After an update, a reader finds every setting of the new block under the alias, and nothing written before. */
  lemma UpdatedIsRead(config: string, alias: string, settings: seq<Setting>, n: nat)
    requires WellFormed(alias, settings) && n < |settings|
    requires forall i :: 0 <= i < n ==> settings[i].keyword != settings[n].keyword
    ensures ReadValue(Updated(config, alias, settings), alias, settings[n].keyword) == Some(TrimEnd(settings[n].value))
  {
    UpdatedLines(config, alias, settings);
    NamedExactlyOnce(config, alias, settings);
    var base := Base(config, alias);
    var lines := base + BlockLines(alias, settings);
    var front := base + ["", HostMarker(alias)];
    assert lines == front + SettingLines(settings);
    HostsAreNames(alias);
    hide Base, Updated, Names, ReadsHost, TrimEnd, EndsBlock, SettingOf, Lines, Plain;
    HostIsAt(lines, 0, |base| + 1, alias);
    ValueIsFound(front, settings, 0, n);
  }

  lemma TunnelKeywordsDiffer(port: nat, key: string, nullKnownHosts: string)
    ensures var settings := TunnelSettings(port, key, nullKnownHosts);
            forall i, j :: 0 <= i < j < 6 ==> settings[i].keyword != settings[j].keyword
  {
    assert |"HostName"| == 8 && |"Port"| == 4 && |"User"| == 4 && |"IdentityFile"| == 12;
    assert |"StrictHostKeyChecking"| == 21 && |"UserKnownHostsFile"| == 18;
    assert "Port"[0] == 'P' && "User"[0] == 'U';
    hide NatText;
  }

  lemma VisibleEnd(s: string)
    requires s != "" && !IsSpace(s[|s| - 1])
    ensures TrimEnd(s) == s
  {
  }

  lemma TunnelValuesEndVisibly(port: nat)
    ensures TrimEnd("127.0.0.1") == "127.0.0.1" && TrimEnd(NatText(port)) == NatText(port) && TrimEnd("vk") == "vk" && TrimEnd("no") == "no"
  {
    assert "127.0.0.1"[8] == '1' && "vk"[1] == 'k' && "no"[1] == 'o';
    VisibleEnd("127.0.0.1");
    VisibleEnd("vk");
    VisibleEnd("no");
    var s := NatText(port);
    assert IsDigit(s[|s| - 1]);
    VisibleEnd(s);
  }

  /** Under the alias a reader finds the loopback address, this port, the user, the key, and no check of host keys. */
  lemma TunnelIsFound(config: string, alias: string, port: nat, key: string, nullKnownHosts: string)
    requires alias != "" && Tight(alias) && CleanLine(alias) && Written(key) && Written(nullKnownHosts)
    ensures var file := Updated(config, alias, TunnelSettings(port, key, nullKnownHosts));
            && ReadValue(file, alias, "HostName") == Some("127.0.0.1")
            && ReadValue(file, alias, "Port") == Some(NatText(port))
            && ReadValue(file, alias, "User") == Some("vk")
            && ReadValue(file, alias, "IdentityFile") == Some(TrimEnd(key))
            && ReadValue(file, alias, "StrictHostKeyChecking") == Some("no")
            && ReadValue(file, alias, "UserKnownHostsFile") == Some(TrimEnd(nullKnownHosts))
  {
    var settings := TunnelSettings(port, key, nullKnownHosts);
    TunnelSettingsArePlain(port, key, nullKnownHosts);
    TunnelKeywordsDiffer(port, key, nullKnownHosts);
    TunnelValuesEndVisibly(port);
    hide Plain, Written, Updated, ReadValue, TrimEnd, NatText, Tight, CleanLine;
    assert WellFormed(alias, settings);
    UpdatedIsRead(config, alias, settings, 0);
    UpdatedIsRead(config, alias, settings, 1);
    UpdatedIsRead(config, alias, settings, 2);
    UpdatedIsRead(config, alias, settings, 3);
    UpdatedIsRead(config, alias, settings, 4);
    UpdatedIsRead(config, alias, settings, 5);
  }
}
