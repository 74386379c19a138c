/** Scoping a diff summary to a set of files: one pass over its lines against its sections. */
module DiffFilter {
  import opened Decimal
  import opened Text

  predicate IsHeader(line: string) { StartsWith(line, "diff --git ") }

  /** The blank-separated words of a line, as `str.split()` gives them. */
  function Words(line: string): seq<string>
    decreases |line|
  {
    if line == "" then []
    else if IsSpace(line[0]) then Words(line[1..])
    else
      var n := WordEnd(line, 1);
      [line[..n]] + Words(line[n..])
  }

  function WordEnd(line: string, from: nat): (n: nat)
    requires from <= |line|
    ensures from <= n <= |line|
    decreases |line| - from
  {
    if from < |line| && !IsSpace(line[from]) then WordEnd(line, from + 1) else from
  }

  /** `_diff_git_line_path`. */
  function HeaderPath(line: string): string {
    var parts := Words(line);
    if |parts| < 3 then "" else if StartsWith(parts[2], "a/") then parts[2][2..] else parts[2]
  }

  function BeforeBar(s: string): string {
    if s == "" || s[0] == '|' then "" else [s[0]] + BeforeBar(s[1..])
  }

  /** `_summary_stat_line_path`. */
  function StatPath(line: string): string {
    var stripped := Strip(line);
    if '|' !in stripped then ""
    else
      var path := Strip(BeforeBar(stripped));
      if path == "" || IsDigit(path[0]) then "" else if |path| > 200 then path[..200] else path
  }

  // ---- Which file a line speaks of ----

  predicate Blank(s: string) { forall i :: 0 <= i < |s| ==> IsSpace(s[i]) }

  /** A word: some characters, none of them blank. */
  predicate Word(s: string) { s != "" && forall i :: 0 <= i < |s| ==> !IsSpace(s[i]) }

  /** A word ends where the text ends or a blank follows. */
  predicate EndsWord(rest: string) { rest == "" || IsSpace(rest[0]) }

  lemma {:induction false} WordsSkip(blanks: string, rest: string)
    requires Blank(blanks)
    ensures Words(blanks + rest) == Words(rest)
  {
    if blanks == "" {
      assert blanks + rest == rest;
    } else {
      assert (blanks + rest)[1..] == blanks[1..] + rest;
      WordsSkip(blanks[1..], rest);
    }
  }

  lemma {:induction false} WordEndAt(word: string, rest: string, from: nat)
    requires Word(word) && EndsWord(rest) && from <= |word|
    ensures WordEnd(word + rest, from) == |word|
    decreases |word| - from
  {
    if from < |word| {
      assert (word + rest)[from] == word[from];
      WordEndAt(word, rest, from + 1);
    }
  }

  lemma WordsTake(word: string, rest: string)
    requires Word(word) && EndsWord(rest)
    ensures Words(word + rest) == [word] + Words(rest)
  {
    WordEndAt(word, rest, 1);
    assert (word + rest)[0] == word[0] && (word + rest)[..|word|] == word && (word + rest)[|word|..] == rest;
  }

  /**
   The path of a header is its third word without a leading "a/": whatever blanks stand before it and whatever follows it;
   a header with nothing but blanks after its two tags has none.
   */
  lemma HeaderPathMeans(blanks: string, word: string, rest: string)
    requires Blank(blanks)
    ensures HeaderPath("diff --git " + blanks) == ""
    ensures Word(word) && EndsWord(rest) && !StartsWith(word, "a/") ==> HeaderPath("diff --git " + blanks + word + rest) == word
    ensures Word("a/" + word) && EndsWord(rest) ==> HeaderPath("diff --git " + blanks + ("a/" + word) + rest) == word
  {
    TagWords(blanks);
    assert blanks + "" == blanks;
    WordsSkip(blanks, "");
    if Word(word) && EndsWord(rest) && !StartsWith(word, "a/") { ThirdWord(blanks, word, rest); }
    if Word("a/" + word) && EndsWord(rest) {
      ThirdWord(blanks, "a/" + word, rest);
      assert ("a/" + word)[2..] == word;
    }
  }

  /** A header is a line that begins with the two tags and a blank. */
  lemma HeaderExactly(line: string)
    ensures IsHeader(line) <==> exists tail: string :: line == "diff --git " + tail
  {
    if IsHeader(line) { assert line == "diff --git " + line[11..]; }
  }

  /** The two tags of a header are its first two words. */
  lemma TagWords(tail: string)
    ensures Words("diff --git " + tail) == ["diff", "--git"] + Words(tail)
  {
    hide Words, Word, Blank, EndsWord;
    OneTag("diff", "--git " + tail);
    OneTag("--git", tail);
    assert "diff --git " + tail == "diff" + " " + ("--git" + " " + tail);
    assert "--git " + tail == "--git" + " " + tail;
  }

  lemma OneTag(tag: string, tail: string)
    requires tag == "diff" || tag == "--git"
    ensures Words(tag + " " + tail) == [tag] + Words(tail)
  {
    hide Words;
    assert tag + " " + tail == tag + (" " + tail);
    WordsTake(tag, " " + tail);
    WordsSkip(" ", tail);
  }

  lemma ThirdWord(blanks: string, word: string, rest: string)
    requires Blank(blanks) && Word(word) && EndsWord(rest)
    ensures Words("diff --git " + blanks + word + rest) == ["diff", "--git", word] + Words(rest)
  {
    assert "diff --git " + blanks + word + rest == "diff --git " + (blanks + (word + rest));
    TagWords(blanks + (word + rest));
    WordsSkip(blanks, word + rest);
    WordsTake(word, rest);
  }

  /** A text that does not begin or end with a blank. */
  predicate Trim(s: string) { s != "" && !IsSpace(s[0]) && !IsSpace(s[|s| - 1]) }

  lemma {:induction false} BeforeBarAt(before: string, rest: string)
    requires '|' !in before
    ensures BeforeBar(before + "|" + rest) == before
  {
    if before != "" {
      assert (before + "|" + rest)[1..] == before[1..] + "|" + rest;
      BeforeBarAt(before[1..], rest);
    }
  }

  lemma {:induction false} StripLeftSkips(blanks: string, s: string)
    requires Blank(blanks) && (s == "" || !IsSpace(s[0]))
    ensures StripLeft(blanks + s) == s
  {
    if blanks == "" {
      assert blanks + s == s;
    } else {
      assert (blanks + s)[1..] == blanks[1..] + s;
      StripLeftSkips(blanks[1..], s);
    }
  }

  lemma {:induction false} StripRightSkips(s: string, blanks: string)
    requires Blank(blanks) && (s == "" || !IsSpace(s[|s| - 1]))
    ensures StripRight(s + blanks) == s
  {
    if blanks == "" {
      assert s + blanks == s;
    } else {
      assert (s + blanks)[..|s + blanks| - 1] == s + blanks[..|blanks| - 1];
      StripRightSkips(s, blanks[..|blanks| - 1]);
    }
  }

  /** Blanks around a text come off. */
  lemma StripAround(before: string, s: string, after: string)
    requires Blank(before) && Blank(after) && (s == "" || Trim(s))
    ensures Strip(before + s + after) == s
  {
    if s == "" {
      assert before + s + after == (before + after) + "";
      StripLeftSkips(before + after, "");
    } else {
      assert before + s + after == before + (s + after);
      StripLeftSkips(before, s + after);
      StripRightSkips(s, after);
    }
  }

  /** Stripping a text with a bar keeps what stands before the bar, up to the blanks at its front. */
  lemma StripBar(before: string, path: string, rest: string) returns (kept: string)
    requires Blank(before) && (path == "" || !IsSpace(path[0]))
    ensures Strip(before + path + "|" + rest) == path + "|" + kept
  {
    var s := path + "|" + rest;
    assert before + path + "|" + rest == before + s;
    StripLeftSkips(before, s);
    var j := StripRightMeans(s);
    assert s[|path|] == '|';
    kept := s[..j][|path| + 1..];
    assert s[..j] == path + "|" + kept;
  }

  /**
   The path of a stat line is what stands before its first bar, without the blanks around it and cut at 200 characters;
   a line without a bar, with nothing before it, or with a digit first has none.
   */
  lemma StatPathMeans(before: string, path: string, after: string, rest: string)
    requires Blank(before) && Blank(after) && '|' !in before + path + after
    ensures StatPath(before + path + after) == ""
    ensures StatPath(before + "|" + rest) == ""
    ensures Trim(path) ==>
              StatPath(before + path + after + "|" + rest) ==
                if '0' <= path[0] <= '9' then "" else if |path| <= 200 then path else path[..200]
  {
    hide Strip, BeforeBar;
    NoBar(before + path + after);
    NothingBefore(before, rest);
    if Trim(path) { SomethingBefore(before, path, after, rest); }
  }

  lemma NoBar(line: string)
    requires '|' !in line
    ensures StatPath(line) == ""
  {
    hide Strip;
    var i, j := StripMeans(line);
    assert forall k :: 0 <= k < |line[i..j]| ==> line[i..j][k] == line[i + k];
  }

  lemma NothingBefore(before: string, rest: string)
    requires Blank(before)
    ensures StatPath(before + "|" + rest) == ""
  {
    hide Strip, BeforeBar;
    var kept := StripBar(before, "", rest);
    assert before + "" + "|" + rest == before + "|" + rest;
    BeforeBarAt("", kept);
    StripAround("", "", "");
    assert "" + "" + "" == "";
    assert ("" + "|" + kept)[0] == '|';
  }

  lemma SomethingBefore(before: string, path: string, after: string, rest: string)
    requires Blank(before) && Blank(after) && Trim(path) && '|' !in before + path + after
    ensures StatPath(before + path + after + "|" + rest) ==
              if '0' <= path[0] <= '9' then "" else if |path| <= 200 then path else path[..200]
  {
    hide Strip, BeforeBar;
    assert forall c :: c in path + after ==> c in before + path + after;
    var kept := StripBar(before, path + after, rest);
    assert before + (path + after) + "|" + rest == before + path + after + "|" + rest;
    BeforeBarAt(path + after, kept);
    assert '|' in path + after + "|" + kept by { assert (path + after + "|" + kept)[|path + after|] == '|'; }
    StripAround("", path, after);
    assert "" + path + after == path + after;
  }

  // ---- Sections ----

  /** The lines ahead of the first header, and the sections, each from a header up to the next. */
  datatype Diff = Diff(preamble: seq<string>, sections: seq<seq<string>>)

  function Extend(d: Diff, line: string): Diff {
    if IsHeader(line) then d.(sections := d.sections + [[line]])
    else if d.sections == [] then d.(preamble := d.preamble + [line])
    else
      var n := |d.sections| - 1;
      d.(sections := d.sections[..n] + [d.sections[n] + [line]])
  }

  function Split(lines: seq<string>): Diff {
    if lines == [] then Diff([], []) else Extend(Split(lines[..|lines| - 1]), lines[|lines| - 1])
  }

  function Concat(sections: seq<seq<string>>): seq<string> {
    if sections == [] then [] else Concat(sections[..|sections| - 1]) + sections[|sections| - 1]
  }

  function Join(d: Diff): seq<string> { d.preamble + Concat(d.sections) }

  /** A section is a header followed by lines that are none. */
  predicate IsSection(s: seq<string>) {
    s != [] && IsHeader(s[0]) && forall i :: 0 < i < |s| ==> !IsHeader(s[i])
  }

  predicate Plain(lines: seq<string>) { forall i :: 0 <= i < |lines| ==> !IsHeader(lines[i]) }

  predicate WellFormed(d: Diff) {
    && Plain(d.preamble)
    && (forall k :: 0 <= k < |d.sections| ==> IsSection(d.sections[k]))
  }

  function ScopedStats(lines: seq<string>, files: set<string>): seq<string> {
    if lines == [] then []
    else ScopedStats(lines[..|lines| - 1], files) + if StatPath(lines[|lines| - 1]) in files then [lines[|lines| - 1]] else []
  }

  function ScopedSections(sections: seq<seq<string>>, files: set<string>): seq<seq<string>> {
    if sections == [] then []
    else
      var last := sections[|sections| - 1];
      ScopedSections(sections[..|sections| - 1], files) + if last != [] && HeaderPath(last[0]) in files then [last] else []
  }

  function Scoped(d: Diff, files: set<string>): Diff {
    Diff(ScopedStats(d.preamble, files), ScopedSections(d.sections, files))
  }

  /** The specification: the in-scope stat lines ahead of the first header, then the in-scope sections, in order. */
  function InScope(lines: seq<string>, files: set<string>): seq<string> { Join(Scoped(Split(lines), files)) }

  lemma ConcatAppend(sections: seq<seq<string>>, s: seq<string>)
    ensures Concat(sections + [s]) == Concat(sections) + s
  {
    assert (sections + [s])[..|sections|] == sections;
  }

  lemma StatsAppend(lines: seq<string>, line: string, files: set<string>)
    ensures ScopedStats(lines + [line], files) == ScopedStats(lines, files) + if StatPath(line) in files then [line] else []
  {
    hide StatPath;
    assert (lines + [line])[..|lines|] == lines;
  }

  lemma SectionsAppend(sections: seq<seq<string>>, s: seq<string>, files: set<string>)
    ensures ScopedSections(sections + [s], files) ==
            ScopedSections(sections, files) + if s != [] && HeaderPath(s[0]) in files then [s] else []
  {
    hide HeaderPath;
    assert (sections + [s])[..|sections|] == sections;
  }

  lemma ExtendJoins(d: Diff, line: string)
    requires WellFormed(d)
    ensures WellFormed(Extend(d, line)) && Join(Extend(d, line)) == Join(d) + [line]
  {
    hide IsHeader, IsSection, Concat;
    if IsHeader(line) {
      ConcatAppend(d.sections, [line]);
      NewSection(line);
    } else if d.sections != [] {
      var n := |d.sections| - 1;
      assert IsSection(d.sections[n]);
      GrowSection(d.sections[n], line);
      ConcatAppend(d.sections[..n], d.sections[n]);
      ConcatAppend(d.sections[..n], d.sections[n] + [line]);
      assert d.sections == d.sections[..n] + [d.sections[n]];
    } else {
      EmptyConcat();
    }
  }

  lemma EmptyConcat()
    ensures Concat([]) == []
  {}

  /** Splitting loses nothing and yields proper sections. */
  lemma {:induction false} SplitJoins(lines: seq<string>)
    ensures Join(Split(lines)) == lines && WellFormed(Split(lines))
  {
    hide Extend, IsHeader, IsSection, Concat;
    if lines == [] {
      EmptyConcat();
    } else {
      SplitJoins(lines[..|lines| - 1]);
      ExtendJoins(Split(lines[..|lines| - 1]), lines[|lines| - 1]);
    }
  }

  lemma SplitAppend(lines: seq<string>, line: string)
    ensures Split(lines + [line]) == Extend(Split(lines), line)
  {
    assert (lines + [line])[..|lines|] == lines;
  }

  lemma NewSection(line: string)
    requires IsHeader(line)
    ensures IsSection([line])
  {}

  lemma GrowSection(s: seq<string>, line: string)
    requires IsSection(s) && !IsHeader(line)
    ensures IsSection(s + [line])
  {}

  lemma {:induction false} SplitPreamble(lines: seq<string>)
    requires Plain(lines)
    ensures Split(lines) == Diff(lines, [])
  {
    hide IsHeader, Split, Extend, Plain;
    SplitNothing();
    if lines != [] {
      var init, last := lines[..|lines| - 1], lines[|lines| - 1];
      PlainInit(lines);
      SplitPreamble(init);
      SplitAppend(init, last);
      ExtendPreamble(init, last);
      assert lines == init + [last];
    }
  }

  lemma SplitNothing()
    ensures Split([]) == Diff([], [])
  {}

  lemma PlainInit(lines: seq<string>)
    requires Plain(lines) && lines != []
    ensures Plain(lines[..|lines| - 1]) && !IsHeader(lines[|lines| - 1])
  {}

  lemma ExtendPreamble(lines: seq<string>, line: string)
    requires !IsHeader(line)
    ensures Extend(Diff(lines, []), line) == Diff(lines + [line], [])
  {}

  /** Lines followed by one more section split into the sections of the lines and that section. */
  lemma {:induction false} SplitSection(lines: seq<string>, s: seq<string>)
    requires IsSection(s)
    ensures Split(lines + s) == Diff(Split(lines).preamble, Split(lines).sections + [s])
  {
    hide IsHeader, Split;
    var init, last := s[..|s| - 1], s[|s| - 1];
    SplitAppend(lines + init, last);
    assert lines + s == (lines + init) + [last] && s == init + [last];
    if |s| == 1 {
      assert lines + init == lines;
    } else {
      SplitSection(lines, init);
      var before := Split(lines).sections;
      assert (before + [init])[..|before|] == before;
    }
  }

  /** Joining proper sections and splitting again gives them back. */
  lemma {:induction false} JoinSplits(d: Diff)
    requires WellFormed(d)
    ensures Split(Join(d)) == d
    decreases |d.sections|
  {
    hide IsHeader, IsSection, Split;
    if d.sections == [] {
      assert Join(d) == d.preamble;
      SplitPreamble(d.preamble);
    } else {
      var n := |d.sections| - 1;
      var shorter := Diff(d.preamble, d.sections[..n]);
      JoinSplits(shorter);
      assert d.sections == d.sections[..n] + [d.sections[n]];
      ConcatAppend(d.sections[..n], d.sections[n]);
      assert Join(d) == Join(shorter) + d.sections[n];
      SplitSection(Join(shorter), d.sections[n]);
    }
  }

  // ---- What scoping keeps ----

  lemma {:induction false} StatsCompose(lines: seq<string>, f: set<string>, g: set<string>)
    ensures ScopedStats(ScopedStats(lines, f), g) == ScopedStats(lines, f * g)
    ensures forall l :: l in ScopedStats(lines, f) ==> l in lines
  {
    if lines != [] {
      hide StatPath, ScopedStats;
      var init, last := lines[..|lines| - 1], lines[|lines| - 1];
      assert lines == init + [last];
      StatsCompose(init, f, g);
      StatsAppend(init, last, f);
      StatsAppend(init, last, f * g);
      StatsAppend(ScopedStats(init, f), last, g);
      assert ScopedStats(init, f) + [] == ScopedStats(init, f);
    }
  }

  lemma {:induction false} SectionsCompose(sections: seq<seq<string>>, f: set<string>, g: set<string>)
    ensures ScopedSections(ScopedSections(sections, f), g) == ScopedSections(sections, f * g)
    ensures forall s :: s in ScopedSections(sections, f) ==> s in sections
  {
    if sections != [] {
      hide HeaderPath, ScopedSections;
      var init, last := sections[..|sections| - 1], sections[|sections| - 1];
      assert sections == init + [last];
      SectionsCompose(init, f, g);
      SectionsAppend(init, last, f);
      SectionsAppend(init, last, f * g);
      SectionsAppend(ScopedSections(init, f), last, g);
      assert ScopedSections(init, f) + [] == ScopedSections(init, f);
    }
  }

  /** Scoping keeps preamble lines and sections what they are. */
  lemma ScopedWellFormed(d: Diff, f: set<string>)
    requires WellFormed(d)
    ensures WellFormed(Scoped(d, f))
  {
    hide IsHeader, IsSection, ScopedStats, ScopedSections;
    StatsCompose(d.preamble, f, f);
    SectionsCompose(d.sections, f, f);
    var e := Scoped(d, f);
    forall i | 0 <= i < |e.preamble| ensures !IsHeader(e.preamble[i]) { assert e.preamble[i] in d.preamble; }
    forall k | 0 <= k < |e.sections| ensures IsSection(e.sections[k]) { assert e.sections[k] in d.sections; }
  }

  /** Scoping to one set of files and then to another is scoping to both; in particular scoping twice changes nothing. */
  lemma ScopingComposes(lines: seq<string>, f: set<string>, g: set<string>)
    ensures InScope(InScope(lines, f), g) == InScope(lines, f * g)
  {
    hide Split, ScopedStats, ScopedSections, WellFormed, Concat;
    var d := Split(lines);
    SplitJoins(lines);
    ScopedWellFormed(d, f);
    StatsCompose(d.preamble, f, g);
    SectionsCompose(d.sections, f, g);
    JoinSplits(Scoped(d, f));
  }

  // ---- The one-pass filter ----

  /** What the pass holds after some lines: everything but the open section is settled. */
  predicate Pass(lines: seq<string>, files: set<string>, kept: seq<string>, current: seq<string>, inScope: bool) {
    var d := Split(lines);
    if d.sections == [] then current == [] && kept == ScopedStats(d.preamble, files)
    else
      var n := |d.sections| - 1;
      && current == d.sections[n] && current != [] && (inScope <==> HeaderPath(current[0]) in files)
      && kept == ScopedStats(d.preamble, files) + Concat(ScopedSections(d.sections[..n], files))
  }

  /** Closing the open section. */
  lemma PassEnds(lines: seq<string>, files: set<string>, kept: seq<string>, current: seq<string>, inScope: bool)
    requires Pass(lines, files, kept, current, inScope)
    ensures (if current != [] && inScope then kept + current else kept) == InScope(lines, files)
  {
    hide Split, ScopedStats, HeaderPath;
    var d := Split(lines);
    if d.sections != [] {
      hide ScopedSections, Concat;
      var earlier := d.sections[..|d.sections| - 1];
      assert d.sections == earlier + [current];
      SectionsAppend(earlier, current, files);
      ConcatAppend(ScopedSections(earlier, files), current);
      assert ScopedSections(earlier, files) + [] == ScopedSections(earlier, files);
    }
  }

  lemma PassHeader(lines: seq<string>, line: string, files: set<string>, kept: seq<string>, current: seq<string>, inScope: bool)
    requires Pass(lines, files, kept, current, inScope) && IsHeader(line)
    ensures Pass(lines + [line], files, if current != [] && inScope then kept + current else kept, [line], HeaderPath(line) in files)
  {
    hide Split, ScopedStats, ScopedSections, HeaderPath, IsHeader, Concat;
    PassEnds(lines, files, kept, current, inScope);
    SplitAppend(lines, line);
    var d := Split(lines);
    assert (d.sections + [[line]])[..|d.sections|] == d.sections;
  }

  lemma PassLine(lines: seq<string>, line: string, files: set<string>, kept: seq<string>, current: seq<string>, inScope: bool)
    requires Pass(lines, files, kept, current, inScope) && !IsHeader(line)
    ensures current != [] ==> Pass(lines + [line], files, kept, current + [line], inScope)
    ensures current == [] ==> Pass(lines + [line], files, if StatPath(line) in files then kept + [line] else kept, [], inScope)
  {
    hide Split, ScopedSections, HeaderPath, IsHeader, Concat, StatPath;
    SplitAppend(lines, line);
    var d := Split(lines);
    if d.sections == [] {
      StatsAppend(d.preamble, line, files);
    } else {
      var n := |d.sections| - 1;
      assert (d.sections[..n] + [current + [line]])[..n] == d.sections[..n];
    }
  }

  /** `_filter_diff_summary_to_files` on the lines, before the final strip: both branches meet the one specification. */
  method FilterDiff(lines: seq<string>, files: set<string>) returns (kept: seq<string>)
    ensures kept == if lines == [] || files == {} then lines else InScope(lines, files)
  {
    if lines == [] || files == {} {
      return lines;
    }
    hide Pass, InScope, Split;
    if i :| 0 <= i < |lines| && IsHeader(lines[i]) {
      kept := FilterSections(lines, files);
    } else {
      kept := FilterStats(lines, files);
    }
  }

  method FilterSections(lines: seq<string>, files: set<string>) returns (kept: seq<string>)
    ensures kept == InScope(lines, files)
  {
    kept := [];
    var current: seq<string>, inScope := [], false;
    for i := 0 to |lines|
      invariant Pass(lines[..i], files, kept, current, inScope)
    {
      hide Pass;
      assert lines[..i + 1] == lines[..i] + [lines[i]];
      if IsHeader(lines[i]) {
        PassHeader(lines[..i], lines[i], files, kept, current, inScope);
        if current != [] && inScope {
          kept := kept + current;
        }
        current := [lines[i]];
        inScope := HeaderPath(lines[i]) in files;
        continue;
      }
      PassLine(lines[..i], lines[i], files, kept, current, inScope);
      if current != [] {
        current := current + [lines[i]];
      } else if StatPath(lines[i]) in files {
        kept := kept + [lines[i]];
      }
    }
    assert lines[..|lines|] == lines;
    PassEnds(lines, files, kept, current, inScope);
    if current != [] && inScope {
      kept := kept + current;
    }
  }

  method FilterStats(lines: seq<string>, files: set<string>) returns (kept: seq<string>)
    requires Plain(lines)
    ensures kept == InScope(lines, files)
  {
    kept := [];
    for i := 0 to |lines|
      invariant kept == ScopedStats(lines[..i], files)
    {
      hide StatPath;
      assert lines[..i + 1][..i] == lines[..i];
      if StatPath(lines[i]) in files {
        kept := kept + [lines[i]];
      }
    }
    assert lines[..|lines|] == lines;
    SplitPreamble(lines);
    assert ScopedSections([], files) == [] && Concat([]) == [];
  }
}
