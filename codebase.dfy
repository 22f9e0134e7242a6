/**
  The `Codebase` record of `flask_app/codebase/codebase_class.py`: the
  folder-structure text, the per-file summary and its partial refresh.
  The directory is the tree `root` (see `FileTree`), the language model
  call `summarize` is a function parameter, and which files changed in
  the last three minutes is the input set `modified` of file paths.
*/
module Codebase {
  import opened Wrappers
  import opened Strings
  import opened FileTree
  import opened TextLines

  // ---------------------------------------------------------------------
  // The folder structure
  // ---------------------------------------------------------------------

  /** `extract_structure(path, indent)` for the entry `e` whose base name is
      `name`: nothing for an ignored name, else the name with `/` and, for a
      folder, its items in sorted order one level deeper. */
  function RenderEntry(e: Entry, name: string, indent: string, ignored: set<string>): seq<string>
    decreases e, 1
  {
    if name in ignored then []
    else
      [indent + name + "/"] +
      match e
      case File(_, _) => []
      case Folder(_, children) =>
        SortedMembers(children);
        RenderItems(e, SortByName(children), indent, ignored)
  }

  /** The loop over the sorted items of the folder `parent`: a folder
      recurses with two more spaces, a file is one line. */
  function RenderItems(parent: Entry, items: seq<Entry>, indent: string, ignored: set<string>): seq<string>
    requires parent.Folder? && forall c :: c in items ==> c in parent.children
    decreases parent, 0, |items|
  {
    if items == [] then []
    else
      assert items[0] in parent.children;
      var first := match items[0]
        case File(n, _) => [indent + "  " + n]
        case Folder(n, _) => RenderEntry(items[0], n, indent + "  ", ignored);
      first + RenderItems(parent, items[1..], indent, ignored)
  }

  /** `extract_folder_structure`: the lines joined with `\n`. The root's
      name is the base name of the directory path. */
  function FolderStructure(directory: string, root: Entry, ignored: set<string>): string {
    Join(RenderEntry(root, Basename(directory), "", ignored), "\n")
  }

  /** Every line of an entry's rendering starts with its indent, and an
      entry whose name is not ignored starts with its own line. */
  lemma {:induction false} RenderEntryShape(e: Entry, name: string, indent: string, ignored: set<string>)
    ensures name in ignored ==> RenderEntry(e, name, indent, ignored) == []
    ensures name !in ignored ==>
      |RenderEntry(e, name, indent, ignored)| >= 1 && RenderEntry(e, name, indent, ignored)[0] == indent + name + "/"
    ensures forall i :: 0 <= i < |RenderEntry(e, name, indent, ignored)| ==>
      StartsWith(RenderEntry(e, name, indent, ignored)[i], indent)
    decreases e, 1
  {
    if name !in ignored {
      var head := indent + name + "/";
      assert head[..|indent|] == indent;
      var r := RenderEntry(e, name, indent, ignored);
      if e.Folder? {
        SortedMembers(e.children);
        var items := RenderItems(e, SortByName(e.children), indent, ignored);
        RenderItemsIndent(e, SortByName(e.children), indent, ignored);
        assert r == [head] + items;
        forall i | 0 <= i < |r|
          ensures StartsWith(r[i], indent)
        {
          if i > 0 {
            assert r[i] == items[i - 1];
            DeeperStartsWith(items[i - 1], indent);
          }
        }
      } else {
        assert r == [head];
      }
    }
  }

  lemma {:induction false} RenderItemsIndent(parent: Entry, items: seq<Entry>, indent: string, ignored: set<string>)
    requires parent.Folder? && forall c :: c in items ==> c in parent.children
    ensures forall i :: 0 <= i < |RenderItems(parent, items, indent, ignored)| ==>
      StartsWith(RenderItems(parent, items, indent, ignored)[i], indent + "  ")
    decreases parent, 0, |items|
  {
    if items != [] {
      RenderItemsIndent(parent, items[1..], indent, ignored);
      match items[0]
      case File(n, _) =>
        var line := indent + "  " + n;
        assert line[..|indent + "  "|] == indent + "  ";
      case Folder(n, _) =>
        assert items[0] in parent.children;
        RenderEntryShape(items[0], n, indent + "  ", ignored);
    }
  }

  /** Lines starting with `indent + "  "` start with `indent`. */
  lemma {:induction false} DeeperStartsWith(line: string, indent: string)
    requires StartsWith(line, indent + "  ")
    ensures StartsWith(line, indent)
  {
    assert line[..|indent|] == (indent + "  ")[..|indent|];
  }

  /** A run of files inside a folder: one line per file, in the order given. */
  lemma {:induction false} FlatItems(parent: Entry, items: seq<Entry>, indent: string, ignored: set<string>)
    requires parent.Folder? && forall c :: c in items ==> c in parent.children
    requires forall i :: 0 <= i < |items| ==> items[i].File?
    ensures RenderItems(parent, items, indent, ignored) == FileLines(items, indent)
    decreases |items|
  {
    if items != [] {
      FlatItems(parent, items[1..], indent, ignored);
    }
  }

  /** A folder holding only files: its own line, then one line per file,
      the files sorted by name. */
  lemma {:induction false} FlatFolder(n: string, cs: seq<Entry>, name: string, indent: string, ignored: set<string>)
    requires name !in ignored
    requires forall i :: 0 <= i < |cs| ==> cs[i].File?
    ensures SortedByName(SortByName(cs)) && multiset(SortByName(cs)) == multiset(cs)
    ensures RenderEntry(Folder(n, cs), name, indent, ignored)
            == [indent + name + "/"] + FileLines(SortByName(cs), indent)
  {
    var e := Folder(n, cs);
    SortedMembers(cs);
    var sorted := SortByName(cs);
    forall i | 0 <= i < |sorted|
      ensures sorted[i].File?
    {
      assert sorted[i] in cs;
    }
    FlatItems(e, sorted, indent, ignored);
  }

  /** The lines of a run of files, `indent + "  " + name` each. */
  function FileLines(items: seq<Entry>, indent: string): (r: seq<string>)
    ensures |r| == |items|
    ensures forall i :: 0 <= i < |items| ==> r[i] == indent + "  " + items[i].name
  {
    if items == [] then [] else [indent + "  " + items[0].name] + FileLines(items[1..], indent)
  }

  // ---------------------------------------------------------------------
  // The summary
  // ---------------------------------------------------------------------

  /** What summarizing one file gives: the summary, or the message of the
      exception raised while reading or summarizing it. */
  datatype Summarized = Summarized(text: string) | Failed(message: string)

  type Summarizer = string -> Summarized

  /** The entry `generate_summary` writes for one file: its name line, then
      the summary or the error. */
  function SummaryEntry(name: string, s: Summarized): string {
    EntryHead(name) + EntryBody(s)
  }

  function EntryHead(name: string): string {
    "File: " + Basename(name) + "\n"
  }

  function EntryBody(s: Summarized): string {
    match s
    case Summarized(text) => "Summary of file: " + text + "\n"
    case Failed(message) => "Error summarizing file: " + message + "\n"
  }

  /** Every entry names its file on its first line, also when summarizing failed. */
  lemma {:induction false} SummaryEntryStartsWithName(name: string, s: Summarized)
    ensures StartsWith(SummaryEntry(name, s), "File: " + Basename(name) + "\n")
  {
    PrefixOfAppend(EntryHead(name), EntryBody(s));
  }

  /** The entries of the walked files that are not skipped, in walk order. */
  function SummaryEntries(walked: seq<WalkedFile>, cfg: IgnoreConfig, summarize: Summarizer): seq<string>
    decreases |walked|
  {
    if walked == [] then []
    else
      var w := walked[|walked| - 1];
      SummaryEntries(walked[..|walked| - 1], cfg, summarize)
      + (if SkippedFile(w.name, cfg) then [] else [SummaryEntry(w.name, summarize(w.content))])
  }

  /** The files a summary covers: those not skipped. */
  function SummarizedFiles(walked: seq<WalkedFile>, cfg: IgnoreConfig): seq<WalkedFile>
    decreases |walked|
  {
    if walked == [] then []
    else
      var w := walked[|walked| - 1];
      SummarizedFiles(walked[..|walked| - 1], cfg) + (if SkippedFile(w.name, cfg) then [] else [w])
  }

  /** One entry per file that is not skipped, in walk order, whether or not
      summarizing it succeeded: a failure never ends the summary. */
  lemma {:induction false} SummaryEntriesPerFile(walked: seq<WalkedFile>, cfg: IgnoreConfig, summarize: Summarizer)
    ensures |SummaryEntries(walked, cfg, summarize)| == |SummarizedFiles(walked, cfg)|
    ensures forall i :: 0 <= i < |SummarizedFiles(walked, cfg)| ==>
      SummaryEntries(walked, cfg, summarize)[i] ==
        SummaryEntry(SummarizedFiles(walked, cfg)[i].name, summarize(SummarizedFiles(walked, cfg)[i].content))
    decreases |walked|
  {
    if walked != [] {
      SummaryEntriesPerFile(walked[..|walked| - 1], cfg, summarize);
    }
  }

  // ---------------------------------------------------------------------
  // The partial refresh
  // ---------------------------------------------------------------------

  /** A Python dictionary as its items in insertion order. */
  type Dict = seq<(string, string)>

  function Keys(d: Dict): (r: seq<string>)
    ensures |r| == |d| && forall i :: 0 <= i < |d| ==> r[i] == d[i].0
  {
    if d == [] then [] else [d[0].0] + Keys(d[1..])
  }

  function Values(d: Dict): (r: seq<string>)
    ensures |r| == |d| && forall i :: 0 <= i < |d| ==> r[i] == d[i].1
  {
    if d == [] then [] else [d[0].1] + Values(d[1..])
  }

  function Lookup(d: Dict, k: string): Option<string> {
    if d == [] then None else if d[0].0 == k then Some(d[0].1) else Lookup(d[1..], k)
  }

  /** `d[k] = v`: a new key goes at the end, an existing one keeps its place. */
  function DictSet(d: Dict, k: string, v: string): Dict {
    if d == [] then [(k, v)]
    else if d[0].0 == k then [(k, v)] + d[1..]
    else [d[0]] + DictSet(d[1..], k, v)
  }

  /** After `d[k] = v` the key holds `v`, every other key what it held, and
      the keys are in the same order, with `k` at the end if it is new. */
  lemma {:induction false} DictSetSpec(d: Dict, k: string, v: string)
    ensures Lookup(DictSet(d, k, v), k) == Some(v)
    ensures forall k' :: k' != k ==> Lookup(DictSet(d, k, v), k') == Lookup(d, k')
    ensures Keys(DictSet(d, k, v)) == if k in Keys(d) then Keys(d) else Keys(d) + [k]
  {
    if d != [] {
      DictSetSpec(d[1..], k, v);
      assert Keys(d) == [d[0].0] + Keys(d[1..]);
    }
  }

  /** The separator `update_summary` splits the stored summary at. */
  const EntrySeparator := "\n\nFile: "

  /** One part: the file name before the first newline and the entry
      rebuilt from it; `None` where the unpacking raises `ValueError`. */
  function ParsePart(part: string): Option<(string, string)> {
    match Find(part, "\n")
    case None => None
    case Some(i) => Some((part[..i], "File: " + part[..i] + "\n" + part[i + 1..]))
  }

  /** A part splits at its first newline into a name without newline and
      the rest, which the rebuilt entry keeps. */
  lemma {:induction false} ParsePartSpec(part: string)
    ensures ParsePart(part).None? <==> '\n' !in part
    ensures ParsePart(part).Some? ==>
      var name := ParsePart(part).value.0;
      && '\n' !in name
      && part == name + "\n" + part[|name| + 1..]
      && ParsePart(part).value.1 == "File: " + part
  {
    match Find(part, "\n")
    case None =>
      NoNewlineFound(part);
    case Some(i) =>
      FirstNewline(part, i);
      var name, rest := part[..i], part[i + 1..];
      assert ParsePart(part) == Some((name, "File: " + name + "\n" + rest));
      Regroup("File: ", name, "\n", rest);
  }

  lemma {:induction false} Regroup(h: string, a: string, b: string, c: string)
    ensures h + a + b + c == h + (a + b + c)
  {
  }

  lemma {:induction false} NoNewlineFound(part: string)
    requires Find(part, "\n").None?
    ensures '\n' !in part
  {
    forall j | 0 <= j < |part|
      ensures part[j] != '\n'
    {
      assert !OccursAt("\n", part, j);
      assert part[j..j + 1] == [part[j]];
    }
  }

  lemma {:induction false} FirstNewline(part: string, i: nat)
    requires Find(part, "\n") == Some(i)
    ensures i < |part| && '\n' !in part[..i] && part == part[..i] + "\n" + part[i + 1..]
  {
    assert part[i..i + 1] == "\n";
    forall j | 0 <= j < i
      ensures part[..i][j] != '\n'
    {
      assert !OccursAt("\n", part, j);
      assert part[j..j + 1] == [part[j]];
    }
    assert part == part[..i] + part[i..i + 1] + part[i + 1..];
  }

  /** The map built from the parts, in order. */
  function ParseParts(parts: seq<string>): Option<Dict>
    decreases |parts|
  {
    if parts == [] then Some([])
    else match ParseParts(parts[..|parts| - 1])
      case None => None
      case Some(d) =>
        match ParsePart(parts[|parts| - 1])
        case None => None
        case Some(kv) => Some(DictSet(d, kv.0, kv.1))
  }

  /** `summary.split("\n\nFile: ")` with the first part's leading `File: `
      dropped (`[6:]`), parsed into the map. */
  function ParseSummary(summary: string): Option<Dict> {
    var parts := Split(summary, EntrySeparator);
    ParseParts([Drop(parts[0], 6)] + parts[1..])
  }

  /** A stored summary of one entry parses back to that entry under its name. */
  lemma {:induction false} SingleEntryParses(name: string, rest: string)
    requires '\n' !in name && !Contains("File: " + name + "\n" + rest, EntrySeparator)
    ensures ParseSummary("File: " + name + "\n" + rest) == Some([(name, "File: " + name + "\n" + rest)])
  {
    var s := "File: " + name + "\n" + rest;
    SplitAtFind(s, EntrySeparator);
    var part := name + "\n" + rest;
    assert s == "File: " + part;
    assert Drop(s, 6) == part;
    assert part[|name|..|name| + 1] == "\n";
    FindAt(part, "\n", |name|);
    assert part[..|name|] == name && part[|name| + 1..] == rest;
    var parts := Split(s, EntrySeparator);
    assert parts == [s];
    var cut := [Drop(parts[0], 6)] + parts[1..];
    assert cut == [part];
    assert ParsePart(part) == Some((name, s));
    assert cut[..0] == [];
    assert ParseParts(cut) == Some(DictSet([], name, s));
  }

  /** The refresh test on file names: as written it checks the name's ending
      against the ignored directories, not the ignored extensions. */
  predicate RefreshCandidate(name: string, cfg: IgnoreConfig) {
    name !in cfg.files && !EndsWithAny(name, cfg.directories)
  }

  /** The map after the walk: every candidate file whose path is in
      `modified` gets a fresh entry under its bare name; `None` when
      summarizing one of them raises. */
  function Refresh(d: Dict, walked: seq<WalkedFile>, cfg: IgnoreConfig, modified: set<string>,
                   summarize: Summarizer): Option<Dict>
    decreases |walked|
  {
    if walked == [] then Some(d)
    else match Refresh(d, walked[..|walked| - 1], cfg, modified, summarize)
      case None => None
      case Some(d') =>
        var w := walked[|walked| - 1];
        if !RefreshCandidate(w.name, cfg) || PathJoin(w.root, w.name) !in modified then Some(d')
        else match summarize(w.content)
          case Failed(_) => None
          case Summarized(text) => Some(DictSet(d', w.name, "File: " + w.name + "\n" + text))
  }

  /** A walked file that takes part in the refresh. */
  predicate Refreshed(w: WalkedFile, cfg: IgnoreConfig, modified: set<string>) {
    RefreshCandidate(w.name, cfg) && PathJoin(w.root, w.name) in modified
  }

  /** An entry no refreshed file is named after is kept verbatim, in its place. */
  lemma {:induction false} RefreshKeepsOthers(d: Dict, walked: seq<WalkedFile>, cfg: IgnoreConfig,
                                              modified: set<string>, summarize: Summarizer, k: string)
    requires Refresh(d, walked, cfg, modified, summarize).Some?
    requires forall i :: 0 <= i < |walked| && walked[i].name == k ==> !Refreshed(walked[i], cfg, modified)
    ensures Lookup(Refresh(d, walked, cfg, modified, summarize).value, k) == Lookup(d, k)
    ensures k in Keys(d) ==> k in Keys(Refresh(d, walked, cfg, modified, summarize).value)
    decreases |walked|
  {
    if walked != [] {
      var init := walked[..|walked| - 1];
      RefreshKeepsOthers(d, init, cfg, modified, summarize, k);
      var d' := Refresh(d, init, cfg, modified, summarize).value;
      var w := walked[|walked| - 1];
      if Refreshed(w, cfg, modified) {
        var text := summarize(w.content).text;
        DictSetSpec(d', w.name, "File: " + w.name + "\n" + text);
      }
    }
  }

  /** The refresh keeps the existing keys in their first-insertion order and
      only adds new ones after them. */
  lemma {:induction false} RefreshKeyOrder(d: Dict, walked: seq<WalkedFile>, cfg: IgnoreConfig,
                                           modified: set<string>, summarize: Summarizer)
    requires Refresh(d, walked, cfg, modified, summarize).Some?
    ensures Keys(d) <= Keys(Refresh(d, walked, cfg, modified, summarize).value)
    decreases |walked|
  {
    if walked != [] {
      var init := walked[..|walked| - 1];
      RefreshKeyOrder(d, init, cfg, modified, summarize);
      var d' := Refresh(d, init, cfg, modified, summarize).value;
      var w := walked[|walked| - 1];
      if Refreshed(w, cfg, modified) {
        DictSetSpec(d', w.name, "File: " + w.name + "\n" + summarize(w.content).text);
      }
    }
  }

  /** The last refreshed file with a name holds that name's entry. */
  lemma {:induction false} RefreshLast(d: Dict, walked: seq<WalkedFile>, cfg: IgnoreConfig, modified: set<string>,
                    summarize: Summarizer)
    requires walked != [] && Refresh(d, walked, cfg, modified, summarize).Some?
    requires Refreshed(walked[|walked| - 1], cfg, modified)
    ensures var w := walked[|walked| - 1];
      && summarize(w.content).Summarized?
      && Lookup(Refresh(d, walked, cfg, modified, summarize).value, w.name)
         == Some("File: " + w.name + "\n" + summarize(w.content).text)
  {
    var w := walked[|walked| - 1];
    var d' := Refresh(d, walked[..|walked| - 1], cfg, modified, summarize).value;
    DictSetSpec(d', w.name, "File: " + w.name + "\n" + summarize(w.content).text);
  }

  /** Every refreshed file whose name no later refreshed file has holds
      `File: <name>\n<new summary>` after the walk. */
  lemma {:induction false} RefreshUpdates(d: Dict, walked: seq<WalkedFile>, cfg: IgnoreConfig, modified: set<string>,
                                          summarize: Summarizer, k: nat)
    requires Refresh(d, walked, cfg, modified, summarize).Some?
    requires k < |walked| && Refreshed(walked[k], cfg, modified)
    requires forall j :: k < j < |walked| && walked[j].name == walked[k].name ==> !Refreshed(walked[j], cfg, modified)
    ensures summarize(walked[k].content).Summarized?
    ensures Lookup(Refresh(d, walked, cfg, modified, summarize).value, walked[k].name)
            == Some("File: " + walked[k].name + "\n" + summarize(walked[k].content).text)
    decreases |walked|
  {
    if k == |walked| - 1 {
      RefreshLast(d, walked, cfg, modified, summarize);
    } else {
      var init := walked[..|walked| - 1];
      assert init[k] == walked[k];
      forall j | k < j < |init| && init[j].name == init[k].name
        ensures !Refreshed(init[j], cfg, modified)
      {
        assert init[j] == walked[j];
      }
      RefreshUpdates(d, init, cfg, modified, summarize, k);
      var d' := Refresh(d, init, cfg, modified, summarize).value;
      var w := walked[|walked| - 1];
      if Refreshed(w, cfg, modified) {
        DictSetSpec(d', w.name, "File: " + w.name + "\n" + summarize(w.content).text);
      }
    }
  }

  /** `"\n\n".join(summary_map.values())` */
  function Rebuild(d: Dict): string {
    Join(Values(d), "\n\n")
  }

  /** The summary `update_summary` stores; `None` where it raises. */
  function UpdatedSummary(stored: Option<string>, walked: seq<WalkedFile>, cfg: IgnoreConfig,
                          modified: set<string>, summarize: Summarizer): Option<string>
  {
    if stored.None? then None
    else match ParseSummary(stored.value)
      case None => None
      case Some(d) =>
        match Refresh(d, walked, cfg, modified, summarize)
        case None => None
        case Some(d') => Some(Rebuild(d'))
  }

  /** With no modified file the rebuild only renormalizes the stored text:
      every parsed entry comes back, in its order. */
  lemma {:induction false} NothingModified(stored: string, walked: seq<WalkedFile>, cfg: IgnoreConfig, summarize: Summarizer)
    requires ParseSummary(stored).Some?
    ensures UpdatedSummary(Some(stored), walked, cfg, {}, summarize) == Some(Rebuild(ParseSummary(stored).value))
  {
    NoRefresh(ParseSummary(stored).value, walked, cfg, summarize);
  }

  lemma {:induction false} NoRefresh(d: Dict, walked: seq<WalkedFile>, cfg: IgnoreConfig, summarize: Summarizer)
    ensures Refresh(d, walked, cfg, {}, summarize) == Some(d)
    decreases |walked|
  {
    if walked != [] {
      NoRefresh(d, walked[..|walked| - 1], cfg, summarize);
    }
  }

  /** The two filters disagree: a file with an ignored extension is left out
      of the summary but re-summarized when it changes. */
  lemma {:induction false} RefreshFilterDiffers()
    ensures var cfg := IgnoreConfig(["build"], [], [".png"]);
      SkippedFile("a.png", cfg) && RefreshCandidate("a.png", cfg)
  {
    var cfg := IgnoreConfig(["build"], [], [".png"]);
    assert "a.png"[|"a.png"| - |".png"|..] == ".png";
    assert EndsWith("a.png", cfg.extensions[0]);
    assert !EndsWith("a.png", "build");
  }

  class Codebase {
    var name: string
    var directory: string
    var folderStructure: string
    var summary: Option<string>
    var description: Option<string>

    /** The constructor renders the folder structure at once. */
    constructor (projectName: string, dir: string, root: Entry, cfg: IgnoreConfig)
      ensures name == projectName && directory == dir && summary.None? && description.None?
      ensures folderStructure == FolderStructure(dir, root, set d | d in cfg.directories)
    {
      name := projectName;
      directory := dir;
      summary := None;
      description := None;
      folderStructure := Join(RenderEntry(root, Basename(dir), "", set d | d in cfg.directories), "\n");
    }

    /** `generate_summary`: one entry per file that is not skipped, joined
        with `\n`. */
    method GenerateSummary(root: Entry, cfg: IgnoreConfig, summarize: Summarizer) returns (result: string)
      modifies this
      ensures result == Join(SummaryEntries(Walk(directory, RootChildren(root), cfg.directories), cfg, summarize), "\n")
      ensures summary == Some(result)
      ensures name == old(name) && directory == old(directory) && folderStructure == old(folderStructure)
      ensures description == old(description)
    {
      var walked := Walk(directory, RootChildren(root), cfg.directories);
      var entries := SummarizeFiles(walked, cfg, summarize);
      result := Join(entries, "\n");
      summary := Some(result);
    }

    /** `update_summary`: parse the stored summary into the map, refresh the
        entries of the modified files, and rebuild. `ok` is false where the
        source raises: no summary yet, a part without a newline, or a failing
        summary call; the stored summary is then unchanged. */
    method UpdateSummary(root: Entry, cfg: IgnoreConfig, modified: set<string>, summarize: Summarizer)
      returns (ok: bool)
      modifies this
      ensures var updated := UpdatedSummary(old(summary), Walk(directory, RootChildren(root), cfg.directories),
                                            cfg, modified, summarize);
        && ok == updated.Some?
        && summary == (if ok then updated else old(summary))
      ensures name == old(name) && directory == old(directory) && folderStructure == old(folderStructure)
      ensures description == old(description)
    {
      if summary.None? {
        return false;
      }
      var parsed := ParseStoredSummary(summary.value);
      if parsed.None? {
        return false;
      }
      var walked := Walk(directory, RootChildren(root), cfg.directories);
      var refreshed := RefreshEntries(parsed.value, walked, cfg, modified, summarize);
      if refreshed.None? {
        return false;
      }
      summary := Some(Join(Values(refreshed.value), "\n\n"));
      ok := true;
    }
  }

  /** The children `os.walk` lists under the root; a file has none. */
  function RootChildren(root: Entry): seq<Entry> {
    if root.Folder? then root.children else []
  }

  /** A part that cannot be unpacked makes the whole parse fail. */
  lemma {:induction false} ParsePartsFails(parts: seq<string>, i: nat)
    requires i < |parts| && ParsePart(parts[i]).None?
    ensures ParseParts(parts) == None
    decreases |parts|
  {
    if i < |parts| - 1 {
      var init := parts[..|parts| - 1];
      assert init[i] == parts[i];
      ParsePartsFails(init, i);
    }
  }

  /** A summary call that fails makes the whole refresh fail. */
  lemma {:induction false} RefreshFails(d: Dict, walked: seq<WalkedFile>, cfg: IgnoreConfig, modified: set<string>,
                                        summarize: Summarizer, k: nat)
    requires k < |walked| && Refresh(d, walked[..k], cfg, modified, summarize).Some?
    requires Refreshed(walked[k], cfg, modified) && summarize(walked[k].content).Failed?
    ensures Refresh(d, walked, cfg, modified, summarize) == None
    decreases |walked|
  {
    if k < |walked| - 1 {
      var init := walked[..|walked| - 1];
      assert init[..k] == walked[..k] && init[k] == walked[k];
      RefreshFails(d, init, cfg, modified, summarize, k);
    } else {
      assert walked[..|walked| - 1] == walked[..k];
    }
  }

  /** The parse loop of `update_summary`; `None` where unpacking a part raises. */
  method ParseStoredSummary(stored: string) returns (d: Option<Dict>)
    ensures d == ParseSummary(stored)
  {
    var parts := Split(stored, EntrySeparator);
    parts := [Drop(parts[0], 6)] + parts[1..];
    var summaryMap: Dict := [];
    var i := 0;
    while i < |parts|
      invariant 0 <= i <= |parts|
      invariant ParseParts(parts[..i]) == Some(summaryMap)
    {
      var part := parts[i];
      match Find(part, "\n") {
        case None =>
          ParsePartsFails(parts, i);
          return None;
        case Some(j) =>
          var fileName := part[..j];
          ParsePartsStep(parts, i, summaryMap);
          summaryMap := DictSet(summaryMap, fileName, "File: " + fileName + "\n" + part[j + 1..]);
      }
      i := i + 1;
    }
    assert parts[..i] == parts;
    d := Some(summaryMap);
  }

  lemma {:induction false} ParsePartsStep(parts: seq<string>, i: nat, d: Dict)
    requires i < |parts| && ParseParts(parts[..i]) == Some(d) && ParsePart(parts[i]).Some?
    ensures ParseParts(parts[..i + 1]) == Some(DictSet(d, ParsePart(parts[i]).value.0, ParsePart(parts[i]).value.1))
  {
    assert parts[..i + 1][..i] == parts[..i];
  }

  /** The walk loop of `update_summary`; `None` where a summary call raises. */
  method RefreshEntries(parsed: Dict, walked: seq<WalkedFile>, cfg: IgnoreConfig, modified: set<string>,
                        summarize: Summarizer) returns (d: Option<Dict>)
    ensures d == Refresh(parsed, walked, cfg, modified, summarize)
  {
    var summaryMap := parsed;
    var k := 0;
    while k < |walked|
      invariant 0 <= k <= |walked|
      invariant Refresh(parsed, walked[..k], cfg, modified, summarize) == Some(summaryMap)
    {
      var w := walked[k];
      assert walked[..k + 1][..k] == walked[..k];
      if RefreshCandidate(w.name, cfg) && PathJoin(w.root, w.name) in modified {
        var s := summarize(w.content);
        match s {
          case Failed(_) =>
            RefreshFails(parsed, walked, cfg, modified, summarize, k);
            return None;
          case Summarized(text) =>
            summaryMap := DictSet(summaryMap, w.name, "File: " + w.name + "\n" + text);
        }
      }
      k := k + 1;
    }
    assert walked[..k] == walked;
    d := Some(summaryMap);
  }

  /** The walk loop of `generate_summary`. */
  method SummarizeFiles(walked: seq<WalkedFile>, cfg: IgnoreConfig, summarize: Summarizer)
    returns (entries: seq<string>)
    ensures entries == SummaryEntries(walked, cfg, summarize)
  {
    entries := [];
    var i := 0;
    while i < |walked|
      invariant 0 <= i <= |walked|
      invariant entries == SummaryEntries(walked[..i], cfg, summarize)
    {
      var w := walked[i];
      assert walked[..i + 1][..i] == walked[..i];
      if !SkippedFile(w.name, cfg) {
        var s := summarize(w.content);
        entries := entries + [SummaryEntry(w.name, s)];
      }
      i := i + 1;
    }
    assert walked[..i] == walked;
  }
}
