/**
 * Class `Log`: before every `Overwrite`, one block of text is appended to
 * the log file, listing the five lists section by section. The clock
 * readings (`datetime.now()`) and the path separator that `dircmp` joins
 * subdirectory paths with are parameters; the text appended to the file
 * is a field of the object.
 */
module Log {
  import opened Wrappers
  import opened FileSystem
  import opened Sync

  /** A path as the program spells it: the root as given, then each name after a separator. */
  function Join(p: Path, sep: string): string
  {
    if p == [] then []
    else if |p| == 1 then p[0]
    else Join(p[..|p| - 1], sep) + sep + p[|p| - 1]
  }

  function Header(date: string, time: string): string
  {
    "###############Sync on " + date + " at " + time + "###############"
  }

  /** The section titles, in the order the block lists them. */
  function Title(k: Kind): string
  {
    match k
    case Modified => "Modifies File(s):"
    case SourceFile => "File(s) only in Source:"
    case TargetFile => "File(s) only in Target:"
    case SourceDir => "Dir(s) only in Source:"
    case TargetDir => "Dir(s) only in  Target:"
  }

  /** One entry: a modified file names both directories, the others the side they were found on. */
  function ItemLine(k: Kind, e: Entry, sep: string): string
  {
    match k
    case Modified => e.name + " found in " + Join(e.sourcePath, sep) + " and " + Join(e.targetPath, sep)
    case SourceFile => e.name + " found in " + Join(e.sourcePath, sep)
    case SourceDir => e.name + " found in " + Join(e.sourcePath, sep)
    case TargetFile => e.name + " found in " + Join(e.targetPath, sep)
    case TargetDir => e.name + " found in " + Join(e.targetPath, sep)
  }

  const NoneLine := "None"

  /** The item lines of a section, one per entry, in list order. */
  function ItemLines(k: Kind, es: seq<Entry>, sep: string): (r: seq<string>)
    ensures |r| == |es|
    ensures forall i | 0 <= i < |es| :: r[i] == ItemLine(k, es[i], sep)
  {
    seq(|es|, i requires 0 <= i < |es| => ItemLine(k, es[i], sep))
  }

  /** The lines of a section, without line breaks: its title, then its items or `None`. */
  function SectionLines(k: Kind, es: seq<Entry>, sep: string): seq<string>
  {
    [Title(k)] + (if es == [] then [NoneLine] else ItemLines(k, es, sep))
  }

  /** Lines joined, each followed by a line break. */
  function Unlines(ls: seq<string>): string
  {
    if ls == [] then [] else ls[0] + "\n" + Unlines(ls[1..])
  }

  /** A section as written. */
  function SectionText(k: Kind, es: seq<Entry>, sep: string): string
  {
    Unlines(SectionLines(k, es, sep))
  }

  /** The whole block `Write` appends: header, the five sections, and an empty line. */
  function LogBlock(date: string, time: string, l: Lists, sep: string): string
  {
    Header(date, time) + "\n"
      + SectionText(Modified, l.Of(Modified), sep)
      + SectionText(SourceFile, l.Of(SourceFile), sep)
      + SectionText(TargetFile, l.Of(TargetFile), sep)
      + SectionText(SourceDir, l.Of(SourceDir), sep)
      + SectionText(TargetDir, l.Of(TargetDir), sep)
      + "\n"
  }

  /** How far the first line of `s` runs before its line break. */
  function LineLength(s: string): (n: nat)
    ensures n <= |s|
    ensures forall i | 0 <= i < n :: s[i] != '\n'
    ensures n < |s| ==> s[n] == '\n'
  {
    if s == [] || s[0] == '\n' then 0 else 1 + LineLength(s[1..])
  }

  /** The lines of a text; a last piece without a line break still counts as a line. */
  function SplitLines(s: string): seq<string>
    decreases |s|
  {
    if s == [] then []
    else
      var n := LineLength(s);
      [s[..n]] + (if n < |s| then SplitLines(s[n + 1..]) else [])
  }

  predicate NoBreak(s: string)
  {
    '\n' !in s
  }

  /** The block read line by line: the reference the written text is checked against. */
  function LogLines(date: string, time: string, l: Lists, sep: string): seq<string>
  {
    [Header(date, time)]
      + SectionLines(Modified, l.Of(Modified), sep)
      + SectionLines(SourceFile, l.Of(SourceFile), sep)
      + SectionLines(TargetFile, l.Of(TargetFile), sep)
      + SectionLines(SourceDir, l.Of(SourceDir), sep)
      + SectionLines(TargetDir, l.Of(TargetDir), sep)
      + [""]
  }

  lemma {:induction false} UnlinesAppend(a: seq<string>, b: seq<string>)
    ensures Unlines(a + b) == Unlines(a) + Unlines(b)
    decreases |a|
  {
    if a == [] {
      assert a + b == b;
    } else {
      assert (a + b)[1..] == a[1..] + b;
      UnlinesAppend(a[1..], b);
    }
  }

  lemma Assoc(a: string, b: string, c: string)
    ensures a + (b + c) == a + b + c
  {
  }

  lemma UnlinesSnoc(ls: seq<string>, i: nat)
    requires i < |ls|
    ensures Unlines(ls[..i + 1]) == Unlines(ls[..i]) + ls[i] + "\n"
  {
    assert ls[..i + 1] == ls[..i] + [ls[i]];
    UnlinesAppend(ls[..i], [ls[i]]);
    assert Unlines([ls[i]]) == ls[i] + "\n";
  }

  /** The block `Write` appends is exactly the reference lines, each ended by a line break. */
  lemma LogBlockLines(date: string, time: string, l: Lists, sep: string)
    ensures LogBlock(date, time, l, sep) == Unlines(LogLines(date, time, l, sep))
  {
    var s1, s2, s3 := SectionLines(Modified, l.Of(Modified), sep), SectionLines(SourceFile, l.Of(SourceFile), sep), SectionLines(TargetFile, l.Of(TargetFile), sep);
    var s4, s5 := SectionLines(SourceDir, l.Of(SourceDir), sep), SectionLines(TargetDir, l.Of(TargetDir), sep);
    UnlinesAppend([Header(date, time)], s1);
    UnlinesAppend([Header(date, time)] + s1, s2);
    UnlinesAppend([Header(date, time)] + s1 + s2, s3);
    UnlinesAppend([Header(date, time)] + s1 + s2 + s3, s4);
    UnlinesAppend([Header(date, time)] + s1 + s2 + s3 + s4, s5);
    UnlinesAppend([Header(date, time)] + s1 + s2 + s3 + s4 + s5, [""]);
    assert Unlines([Header(date, time)]) == Header(date, time) + "\n";
    assert Unlines([""]) == "\n";
  }

  lemma {:induction false} FirstLine(a: string, b: string)
    requires NoBreak(a)
    ensures LineLength(a + "\n" + b) == |a|
    decreases |a|
  {
    if a != [] {
      assert (a + "\n" + b)[1..] == a[1..] + "\n" + b;
      FirstLine(a[1..], b);
    }
  }

  /** Lines without line breaks are read back from their text unchanged. */
  lemma {:induction false} LinesRoundTrip(ls: seq<string>)
    requires LinesNoBreak(ls)
    ensures SplitLines(Unlines(ls)) == ls
    decreases |ls|
  {
    if ls != [] {
      var s := Unlines(ls);
      var rest := Unlines(ls[1..]);
      assert s == ls[0] + "\n" + rest;
      FirstLine(ls[0], rest);
      assert s[..|ls[0]|] == ls[0];
      assert s[|ls[0]| + 1..] == rest;
      LinesRoundTrip(ls[1..]);
      assert ls == [ls[0]] + ls[1..];
    }
  }

  predicate PathNoBreak(p: Path)
  {
    forall i | 0 <= i < |p| :: NoBreak(p[i])
  }

  lemma {:induction false} JoinNoBreak(p: Path, sep: string)
    requires PathNoBreak(p) && NoBreak(sep)
    ensures NoBreak(Join(p, sep))
    decreases |p|
  {
    if |p| > 1 {
      JoinNoBreak(p[..|p| - 1], sep);
    }
  }

  /** Names and directories with no line break in them. */
  predicate EntryNoBreak(e: Entry)
  {
    NoBreak(e.name) && PathNoBreak(e.sourcePath) && PathNoBreak(e.targetPath)
  }

  predicate ListsNoBreak(l: Lists)
  {
    forall k, i | 0 <= i < |l.Of(k)| :: EntryNoBreak(l.Of(k)[i])
  }

  lemma ItemNoBreak(k: Kind, e: Entry, sep: string)
    requires EntryNoBreak(e) && NoBreak(sep)
    ensures NoBreak(ItemLine(k, e, sep))
  {
    JoinNoBreak(e.sourcePath, sep);
    JoinNoBreak(e.targetPath, sep);
  }

  lemma TitleNoBreak(k: Kind)
    ensures NoBreak(Title(k)) && NoBreak(NoneLine)
  {
  }

  /** The five titles tell the sections apart, and none of them reads `None`. */
  lemma TitlesDistinct(j: Kind, k: Kind)
    ensures Title(j) == Title(k) <==> j == k
    ensures Title(k) != NoneLine
  {
  }

  lemma ItemLinesNoBreak(k: Kind, es: seq<Entry>, sep: string)
    requires forall i | 0 <= i < |es| :: EntryNoBreak(es[i])
    requires NoBreak(sep)
    ensures LinesNoBreak(ItemLines(k, es, sep))
  {
    forall i | 0 <= i < |es| ensures NoBreak(ItemLines(k, es, sep)[i]) {
      ItemNoBreak(k, es[i], sep);
    }
  }

  lemma SectionNoBreak(l: Lists, k: Kind, sep: string)
    requires ListsNoBreak(l) && NoBreak(sep)
    ensures LinesNoBreak(SectionLines(k, l.Of(k), sep))
  {
    var es := l.Of(k);
    TitleNoBreak(k);
    if es == [] {
      AllNoBreak([Title(k)], [NoneLine]);
    } else {
      ItemLinesNoBreak(k, es, sep);
      AllNoBreak([Title(k)], ItemLines(k, es, sep));
    }
  }

  lemma AllNoBreak(a: seq<string>, b: seq<string>)
    requires LinesNoBreak(a) && LinesNoBreak(b)
    ensures LinesNoBreak(a + b)
  {
  }

  lemma HeaderNoBreak(date: string, time: string)
    requires NoBreak(date) && NoBreak(time)
    ensures NoBreak(Header(date, time))
  {
  }

  predicate LinesNoBreak(ls: seq<string>)
  {
    forall i | 0 <= i < |ls| :: NoBreak(ls[i])
  }

  lemma BlockNoBreak(h: string, s1: seq<string>, s2: seq<string>, s3: seq<string>, s4: seq<string>, s5: seq<string>)
    requires NoBreak(h)
    requires LinesNoBreak(s1) && LinesNoBreak(s2) && LinesNoBreak(s3) && LinesNoBreak(s4) && LinesNoBreak(s5)
    ensures LinesNoBreak([h] + s1 + s2 + s3 + s4 + s5 + [""])
  {
    AllNoBreak([h], s1);
    AllNoBreak([h] + s1, s2);
    AllNoBreak([h] + s1 + s2, s3);
    AllNoBreak([h] + s1 + s2 + s3, s4);
    AllNoBreak([h] + s1 + s2 + s3 + s4, s5);
    AllNoBreak([h] + s1 + s2 + s3 + s4 + s5, [""]);
  }

  /** No line of the block holds a line break when none of its parts does. */
  lemma LogLinesNoBreak(date: string, time: string, l: Lists, sep: string)
    requires NoBreak(date) && NoBreak(time) && NoBreak(sep) && ListsNoBreak(l)
    ensures LinesNoBreak(LogLines(date, time, l, sep))
  {
    HeaderNoBreak(date, time);
    SectionNoBreak(l, Modified, sep);
    SectionNoBreak(l, SourceFile, sep);
    SectionNoBreak(l, TargetFile, sep);
    SectionNoBreak(l, SourceDir, sep);
    SectionNoBreak(l, TargetDir, sep);
    BlockNoBreak(Header(date, time), SectionLines(Modified, l.Of(Modified), sep), SectionLines(SourceFile, l.Of(SourceFile), sep),
      SectionLines(TargetFile, l.Of(TargetFile), sep), SectionLines(SourceDir, l.Of(SourceDir), sep), SectionLines(TargetDir, l.Of(TargetDir), sep));
  }

  /**
   * When no date, time, name, directory or separator holds a line break,
   * reading the appended block line by line gives back exactly the header,
   * the five sections and the closing empty line.
   */
  lemma LogReadsBack(date: string, time: string, l: Lists, sep: string)
    requires NoBreak(date) && NoBreak(time) && NoBreak(sep) && ListsNoBreak(l)
    ensures SplitLines(LogBlock(date, time, l, sep)) == LogLines(date, time, l, sep)
  {
    LogBlockLines(date, time, l, sep);
    LogLinesNoBreak(date, time, l, sep);
    LinesRoundTrip(LogLines(date, time, l, sep));
  }

  lemma ItemNotNone(k: Kind, e: Entry, sep: string)
    ensures ItemLine(k, e, sep) != NoneLine
  {
    assert |ItemLine(k, e, sep)| >= |" found in "|;
  }

  /**
   * A section says `None` exactly when its list is empty; otherwise it has
   * one line per entry, in list order.
   */
  lemma SectionShape(k: Kind, es: seq<Entry>, sep: string)
    ensures var ls := SectionLines(k, es, sep);
      && |ls| == 1 + (if es == [] then 1 else |es|)
      && ls[0] == Title(k)
      && (ls[1] == NoneLine <==> es == [])
      && forall i | 0 <= i < |es| :: ls[1 + i] == ItemLine(k, es[i], sep)
  {
    if es != [] {
      ItemNotNone(k, es[0], sep);
    }
  }

  /** The block has a header, two or more lines per section, and a closing empty line. */
  lemma LineCount(date: string, time: string, l: Lists, sep: string)
    ensures |LogLines(date, time, l, sep)| ==
      2 + Lines(l.diffFilesList) + Lines(l.fileInSource) + Lines(l.fileInTarget)
        + Lines(l.dirInSource) + Lines(l.dirInTarget)
  {
    SectionShape(Modified, l.Of(Modified), sep);
    SectionShape(SourceFile, l.Of(SourceFile), sep);
    SectionShape(TargetFile, l.Of(TargetFile), sep);
    SectionShape(SourceDir, l.Of(SourceDir), sep);
    SectionShape(TargetDir, l.Of(TargetDir), sep);
  }

  function Lines(es: seq<Entry>): nat
  {
    1 + (if es == [] then 1 else |es|)
  }

  class Log {
    const fileName: string
    var logDate: Option<string>
    var logTime: Option<string>
    /** The text this object has appended to the log file. */
    var written: string

    /** `Log(filename)`: the file is `filename.txt`; nothing is read or written yet. */
    constructor (filename: string)
      ensures fileName == filename + ".txt"
      ensures logDate == None && logTime == None && written == []
    {
      fileName := filename + ".txt";
      logDate, logTime := None, None;
      written := [];
    }

    /** The loop over one list: a line per entry, in list order. */
    method WriteItems(k: Kind, es: seq<Entry>, sep: string)
      modifies this
      ensures logDate == old(logDate) && logTime == old(logTime)
      ensures written == old(written) + Unlines(ItemLines(k, es, sep))
    {
      ghost var items := ItemLines(k, es, sep);
      for i := 0 to |es|
        invariant logDate == old(logDate) && logTime == old(logTime)
        invariant written == old(written) + Unlines(items[..i])
      {
        var line := ItemLine(k, es[i], sep);
        UnlinesSnoc(items, i);
        Assoc(old(written), Unlines(items[..i]), line);
        Assoc(old(written), Unlines(items[..i]) + line, "\n");
        written := written + line + "\n";
      }
      assert items[..|es|] == items;
    }

    /** One section: its title, then a line per entry or `None`. */
    method WriteSection(k: Kind, es: seq<Entry>, sep: string)
      modifies this
      ensures logDate == old(logDate) && logTime == old(logTime)
      ensures written == old(written) + SectionText(k, es, sep)
    {
      ghost var ls := SectionLines(k, es, sep);
      assert ls[1..] == if es == [] then [NoneLine] else ItemLines(k, es, sep);
      written := written + Title(k) + "\n";
      ghost var pre := written;
      if |es| != 0 {
        WriteItems(k, es, sep);
      } else {
        written := written + NoneLine + "\n";
        assert Unlines([NoneLine]) == NoneLine + "\n";
        Assoc(pre, NoneLine, "\n");
      }
      assert written == pre + Unlines(ls[1..]);
      Assoc(old(written), Title(k), "\n");
      Assoc(old(written), Title(k) + "\n", Unlines(ls[1..]));
    }

    /**
     * `Write`: records the clock readings and appends the block for the
     * five lists, in the order modified files, files only in the source,
     * files only in the target, directories only in the source, directories
     * only in the target.
     */
    method Write(diffFilesList: seq<Entry>, fileInSource: seq<Entry>, fileInTarget: seq<Entry>,
                 dirInSource: seq<Entry>, dirInTarget: seq<Entry>, date: string, time: string, sep: string)
      modifies this
      ensures logDate == Some(date) && logTime == Some(time)
      ensures written == old(written)
        + LogBlock(date, time, Lists(diffFilesList, fileInSource, fileInTarget, dirInSource, dirInTarget), sep)
    {
      logDate, logTime := Some(date), Some(time);
      ghost var w0 := written;
      ghost var l := Lists(diffFilesList, fileInSource, fileInTarget, dirInSource, dirInTarget);
      assert l.Of(Modified) == diffFilesList && l.Of(SourceFile) == fileInSource && l.Of(TargetFile) == fileInTarget;
      assert l.Of(SourceDir) == dirInSource && l.Of(TargetDir) == dirInTarget;
      ghost var b := Header(date, time) + "\n";
      Assoc(w0, Header(date, time), "\n");
      written := written + Header(date, time) + "\n";
      WriteSection(Modified, diffFilesList, sep);
      Assoc(w0, b, SectionText(Modified, diffFilesList, sep));
      b := b + SectionText(Modified, diffFilesList, sep);
      WriteSection(SourceFile, fileInSource, sep);
      Assoc(w0, b, SectionText(SourceFile, fileInSource, sep));
      b := b + SectionText(SourceFile, fileInSource, sep);
      WriteSection(TargetFile, fileInTarget, sep);
      Assoc(w0, b, SectionText(TargetFile, fileInTarget, sep));
      b := b + SectionText(TargetFile, fileInTarget, sep);
      WriteSection(SourceDir, dirInSource, sep);
      Assoc(w0, b, SectionText(SourceDir, dirInSource, sep));
      b := b + SectionText(SourceDir, dirInSource, sep);
      WriteSection(TargetDir, dirInTarget, sep);
      Assoc(w0, b, SectionText(TargetDir, dirInTarget, sep));
      b := b + SectionText(TargetDir, dirInTarget, sep);
      Assoc(w0, b, "\n");
      written := written + "\n";
    }
  }
}
