/**
  The string logic of `flask_app/utils/vectordb_integration.py`: the index
  name, the text a retrieval hands to the language model, the
  de-duplicating search over several queries, and the files `load_docs`
  reads. The similarity search of the vector store is the function
  parameter `search`, from index name, query, number of results and
  optional file filter to the matched documents in rank order.
*/
module VectorDb {
  import opened Wrappers
  import opened Strings
  import opened TextLines
  import opened FileTree

  // ---------------------------------------------------------------------
  // Index names
  // ---------------------------------------------------------------------

  /** The characters the second step of `sanitize_index_name` keeps. */
  predicate IndexChar(c: char) {
    ('a' <= c <= 'z') || ('0' <= c <= '9') || c == '-'
  }

  /** `s.replace('_', '-')` */
  function ReplaceUnderscores(s: string): (r: string)
    ensures |r| == |s|
    ensures forall i :: 0 <= i < |s| ==> r[i] == (if s[i] == '_' then '-' else s[i])
  {
    if s == [] then [] else [if s[0] == '_' then '-' else s[0]] + ReplaceUnderscores(s[1..])
  }

  /** `re.sub(r'[^a-z0-9-]', '', s)` */
  function KeepIndexChars(s: string): (r: string)
    ensures forall i :: 0 <= i < |r| ==> IndexChar(r[i])
  {
    if s == [] then []
    else if IndexChar(s[0]) then [s[0]] + KeepIndexChars(s[1..])
    else KeepIndexChars(s[1..])
  }

  /** `sanitize_index_name` */
  function Sanitize(name: string): string {
    KeepIndexChars(ReplaceUnderscores(name))
  }

  lemma {:induction false} ReplaceUnderscoresAppend(a: string, b: string)
    ensures ReplaceUnderscores(a + b) == ReplaceUnderscores(a) + ReplaceUnderscores(b)
  {
    if a == [] {
      assert a + b == b;
    } else {
      assert (a + b)[1..] == a[1..] + b;
      ReplaceUnderscoresAppend(a[1..], b);
    }
  }

  lemma {:induction false} KeepIndexCharsAppend(a: string, b: string)
    ensures KeepIndexChars(a + b) == KeepIndexChars(a) + KeepIndexChars(b)
  {
    if a == [] {
      assert a + b == b;
    } else {
      assert (a + b)[1..] == a[1..] + b;
      KeepIndexCharsAppend(a[1..], b);
    }
  }

  /** Sanitizing works character by character: `_` becomes `-`, the allowed
      characters stay where they are and every other character goes. */
  lemma {:induction false} SanitizeAppend(a: string, b: string)
    ensures Sanitize(a + b) == Sanitize(a) + Sanitize(b)
  {
    ReplaceUnderscoresAppend(a, b);
    KeepIndexCharsAppend(ReplaceUnderscores(a), ReplaceUnderscores(b));
  }

  lemma {:induction false} SanitizeChar(c: char)
    ensures Sanitize([c]) == (if c == '_' then "-" else if IndexChar(c) then [c] else [])
  {
    var m := if c == '_' then '-' else c;
    assert ReplaceUnderscores([c]) == [m];
    assert [m][1..] == [];
    assert KeepIndexChars([m]) == (if IndexChar(m) then [m] else []);
  }

  /** A name made of allowed characters is left as it is. */
  lemma {:induction false} SanitizeFixpoint(s: string)
    requires forall i :: 0 <= i < |s| ==> IndexChar(s[i])
    ensures Sanitize(s) == s
  {
    if s != [] {
      SanitizeFixpoint(s[1..]);
      SanitizeChar(s[0]);
      SanitizeAppend([s[0]], s[1..]);
      assert [s[0]] + s[1..] == s;
    }
  }

  /** What `sanitize_index_name` returns holds only `a-z`, `0-9` and `-`,
      and sanitizing it again changes nothing. */
  lemma {:induction false} SanitizeIdempotent(name: string)
    ensures forall i :: 0 <= i < |Sanitize(name)| ==> IndexChar(Sanitize(name)[i])
    ensures Sanitize(Sanitize(name)) == Sanitize(name)
  {
    SanitizeFixpoint(Sanitize(name));
  }

  /** The name the constructor stores: lower-cased, then sanitized. */
  function IndexName(projectName: string): string {
    Sanitize(Lower(projectName))
  }

  lemma {:induction false} IndexNameAppend(a: string, b: string)
    ensures IndexName(a + b) == IndexName(a) + IndexName(b)
  {
    LowerAppend(a, b);
    SanitizeAppend(Lower(a), Lower(b));
  }

  /** An ASCII capital survives as its small letter; a space, a `.` or any
      other character outside the allowed set disappears. */
  lemma {:induction false} IndexNameChar(c: char)
    ensures IsAsciiUpper(c) ==> IndexName([c]) == [(c as int + 32) as char]
    ensures IsAsciiLower(c) || '0' <= c <= '9' || c == '-' ==> IndexName([c]) == [c]
    ensures c == '_' ==> IndexName([c]) == "-"
    ensures c == ' ' || c == '.' ==> IndexName([c]) == []
  {
    assert Lower([c]) == LowerChar(c) + Lower([]);
    if IsAsciiUpper(c) {
      SanitizeChar((c as int + 32) as char);
    } else if c != '\U{212A}' && c != '\U{130}' {
      SanitizeChar(c);
    }
  }

  // ---------------------------------------------------------------------
  // Retrieval
  // ---------------------------------------------------------------------

  /** A matched document: its `source` metadata, its text, and its
      `content_type` metadata when present. */
  datatype Doc = Doc(source: string, content: string, contentType: Option<string>)

  type Search = (string, string, nat, Option<string>) -> seq<Doc>

  const SourceHeader := "THE CODE CHUNK BELOW IS FROM THIS FILE: "
  const ContentTypeHeader := "THE CODE CHUNK BELOW IS OF THIS CONTENT_TYPE: "
  const ChunkSeparator := "\n\n\n <ANOTHER POSSIBLY RELEVANT CODE CHUNK BELOW> \n\n\n"

  /** The source line of a block. */
  function BlockHead(d: Doc): string {
    SourceHeader + d.source + "\n"
  }

  /** The content-type line, present only when the metadata has the key. */
  function ContentTypeLine(d: Doc): string {
    if d.contentType.Some? then ContentTypeHeader + d.contentType.value + "\n\n" else ""
  }

  /** The text and the separator that end a block. */
  function BlockTail(d: Doc): string {
    d.content + ChunkSeparator
  }

  /** The text one matched document contributes. */
  function Block(d: Doc): string {
    BlockHead(d) + ContentTypeLine(d) + BlockTail(d)
  }

  /** The blocks of the matched documents, in match order. */
  function FormatDocs(docs: seq<Doc>): string
    decreases |docs|
  {
    if docs == [] then [] else FormatDocs(docs[..|docs| - 1]) + Block(docs[|docs| - 1])
  }

  lemma {:induction false} FormatDocsAppend(a: seq<Doc>, b: seq<Doc>)
    ensures FormatDocs(a + b) == FormatDocs(a) + FormatDocs(b)
    decreases |b|
  {
    if b == [] {
      assert a + b == a;
    } else {
      assert (a + b)[..|a + b| - 1] == a + b[..|b| - 1];
      FormatDocsAppend(a, b[..|b| - 1]);
      AppendAssoc(FormatDocs(a), FormatDocs(b[..|b| - 1]), Block(b[|b| - 1]));
    }
  }

  lemma {:induction false} AppendAssoc(a: string, b: string, c: string)
    ensures a + b + c == a + (b + c)
  {
  }

  lemma {:induction false} PrefixSuffix(a: string, b: string)
    ensures StartsWith(a + b, a) && EndsWith(a + b, b)
  {
    assert (a + b)[..|a|] == a;
    assert (a + b)[|a + b| - |b|..] == b;
  }

  /** No match gives the empty text and any match a non-empty one, which
      starts with the first match's source line and ends with the separator. */
  lemma {:induction false} FormatDocsShape(docs: seq<Doc>)
    ensures FormatDocs(docs) == [] <==> docs == []
    ensures docs != [] ==>
      StartsWith(FormatDocs(docs), BlockHead(docs[0])) && EndsWith(FormatDocs(docs), ChunkSeparator)
  {
    if docs != [] {
      FormatDocsEnd(docs);
      FormatDocsStart(docs);
    }
  }

  lemma {:induction false} FormatDocsEnd(docs: seq<Doc>)
    requires docs != []
    ensures EndsWith(FormatDocs(docs), ChunkSeparator)
  {
    var last := docs[|docs| - 1];
    var body := BlockHead(last) + ContentTypeLine(last) + last.content;
    BlockEnd(last);
    EndsWithTail(FormatDocs(docs[..|docs| - 1]), body, ChunkSeparator);
  }

  lemma {:induction false} BlockEnd(d: Doc)
    ensures Block(d) == BlockHead(d) + ContentTypeLine(d) + d.content + ChunkSeparator
  {
  }

  lemma {:induction false} EndsWithTail(a: string, b: string, c: string)
    ensures EndsWith(a + (b + c), c)
  {
    assert (a + (b + c))[|a + (b + c)| - |c|..] == c;
  }

  lemma {:induction false} FormatDocsStart(docs: seq<Doc>)
    requires docs != []
    ensures StartsWith(FormatDocs(docs), BlockHead(docs[0]))
  {
    FormatDocsAppend([docs[0]], docs[1..]);
    assert [docs[0]] + docs[1..] == docs;
    assert [docs[0]][..0] == [];
    var d := docs[0];
    assert FormatDocs([d]) == Block(d);
    AppendAssoc(BlockHead(d) + ContentTypeLine(d), BlockTail(d), FormatDocs(docs[1..]));
    AppendAssoc(BlockHead(d), ContentTypeLine(d), BlockTail(d) + FormatDocs(docs[1..]));
    PrefixSuffix(BlockHead(d), ContentTypeLine(d) + (BlockTail(d) + FormatDocs(docs[1..])));
  }

  /** The filter `retrieve_embeddings` applies: only a non-empty file name
      (`if file:`) restricts the search. */
  function FileFilter(file: Option<string>): (r: Option<string>)
    ensures r.Some? <==> file.Some? && file.value != []
    ensures r.Some? ==> r == file
  {
    if file.Some? && file.value != [] then file else None
  }

  /** What `retrieve_embeddings` returns. */
  function Retrieved(index: string, query: string, k: nat, file: Option<string>, search: Search): string {
    FormatDocs(search(index, query, k, FileFilter(file)))
  }

  /** The retrievals `search_vectordb` makes: one per line, each filtered by
      the text before the line's first space. */
  function LineResults(index: string, lines: seq<string>, search: Search): (r: seq<string>)
    ensures |r| == |lines|
    ensures forall i :: 0 <= i < |lines| ==>
      r[i] == Retrieved(index, lines[i], 1, Some(Split(lines[i], " ")[0]), search)
    decreases |lines|
  {
    if lines == [] then []
    else
      LineResults(index, lines[..|lines| - 1], search)
      + [Retrieved(index, lines[|lines| - 1], 1, Some(Split(lines[|lines| - 1], " ")[0]), search)]
  }

  /** The values of `xs` in the order they are first seen. */
  function Distinct(xs: seq<string>): (r: seq<string>)
    ensures forall x :: x in r <==> x in xs
    ensures forall i, j :: 0 <= i < j < |r| ==> r[i] != r[j]
    decreases |xs|
  {
    if xs == [] then []
    else
      var d := Distinct(xs[..|xs| - 1]);
      assert forall x :: x in xs <==> x in xs[..|xs| - 1] || x == xs[|xs| - 1];
      if xs[|xs| - 1] in d then d else d + [xs[|xs| - 1]]
  }

  /** Seeing more values never reorders the ones already seen. */
  lemma {:induction false} DistinctPrefix(xs: seq<string>, n: nat)
    requires n <= |xs|
    ensures |Distinct(xs[..n])| <= |Distinct(xs)|
    ensures Distinct(xs[..n]) == Distinct(xs)[..|Distinct(xs[..n])|]
    decreases |xs| - n
  {
    if n < |xs| {
      var init := xs[..|xs| - 1];
      assert init[..n] == xs[..n];
      DistinctPrefix(init, n);
    } else {
      assert xs[..n] == xs;
    }
  }

  /** The text the search over `codeNeeded` returns. */
  function SearchResult(index: string, codeNeeded: string, search: Search): string {
    Concat(Distinct(LineResults(index, Split(codeNeeded, "\n"), search)))
  }

  /** Two lines that retrieve the same text contribute it once. */
  lemma {:induction false} SearchDropsRepeats(index: string, a: string, b: string, search: Search)
    requires LineResults(index, [a, b], search)[0] == LineResults(index, [a, b], search)[1]
    ensures Concat(Distinct(LineResults(index, [a, b], search))) == LineResults(index, [a, b], search)[0]
  {
    var r := LineResults(index, [a, b], search);
    assert [r[0]][..0] == [];
    assert Distinct([r[0]]) == [r[0]];
    assert r == [r[0]] + [r[1]];
    DistinctSnoc([r[0]], r[1]);
    ConcatCons(r[0], []);
  }

  /** One pass of the retrieval loop appends one block. */
  lemma {:induction false} BlockAppended(before: string, doc: Doc, after: string)
    requires after == before + BlockHead(doc) + ContentTypeLine(doc) + BlockTail(doc)
    ensures after == before + Block(doc)
  {
    AppendAssoc(before, BlockHead(doc) + ContentTypeLine(doc), BlockTail(doc));
    AppendAssoc(before, BlockHead(doc), ContentTypeLine(doc));
  }

  lemma {:induction false} FormatDocsSnoc(docs: seq<Doc>, i: nat)
    requires i < |docs|
    ensures FormatDocs(docs[..i + 1]) == FormatDocs(docs[..i]) + Block(docs[i])
  {
    assert docs[..i + 1][..i] == docs[..i];
  }

  lemma {:induction false} PrefixSnoc<T>(xs: seq<T>, i: nat)
    requires i < |xs|
    ensures xs[..i + 1] == xs[..i] + [xs[i]]
  {
  }

  lemma {:induction false} DistinctSnoc(xs: seq<string>, s: string)
    ensures Distinct(xs + [s]) == if s in xs then Distinct(xs) else Distinct(xs) + [s]
  {
    assert (xs + [s])[..|xs|] == xs;
  }

  lemma {:induction false} ConcatSnoc(ds: seq<string>, s: string)
    ensures Concat(ds + [s]) == Concat(ds) + s
  {
    ConcatAppend(ds, [s]);
    ConcatCons(s, []);
  }

  /** One pass of the `seen_strings` loop: a result already seen adds
      nothing, a new one is appended to the text and to the seen set. */
  lemma {:induction false} SearchStep(results: seq<string>, i: nat, seen: set<string>)
    requires i < |results|
    requires forall x :: x in seen <==> x in Distinct(results[..i])
    ensures results[i] in seen ==> Distinct(results[..i + 1]) == Distinct(results[..i])
    ensures results[i] !in seen ==>
      Concat(Distinct(results[..i + 1])) == Concat(Distinct(results[..i])) + results[i]
    ensures forall x :: x in seen + {results[i]} <==> x in Distinct(results[..i + 1])
  {
    PrefixSnoc(results, i);
    DistinctSnoc(results[..i], results[i]);
    if results[i] !in seen {
      ConcatSnoc(Distinct(results[..i]), results[i]);
    }
  }

  class VectorDbIntegration {
    var indexName: string

    /** The constructor: `projectName` lower-cased and sanitized. */
    constructor (projectName: string)
      ensures indexName == IndexName(projectName)
    {
      indexName := Sanitize(Lower(projectName));
    }

    /** `retrieve_embeddings(search_string, k, file)` */
    method RetrieveEmbeddings(searchString: string, k: nat, file: Option<string>, search: Search)
      returns (codeStr: string)
      ensures codeStr == Retrieved(indexName, searchString, k, file, search)
    {
      codeStr := "";
      var matched;
      if file.Some? && file.value != [] {
        matched := search(indexName, searchString, k, file);
      } else {
        matched := search(indexName, searchString, k, None);
      }
      var i := 0;
      while i < |matched|
        invariant 0 <= i <= |matched|
        invariant codeStr == FormatDocs(matched[..i])
      {
        var doc := matched[i];
        ghost var before := codeStr;
        codeStr := codeStr + (SourceHeader + doc.source + "\n");
        if doc.contentType.Some? {
          codeStr := codeStr + (ContentTypeHeader + doc.contentType.value + "\n\n");
        }
        codeStr := codeStr + (doc.content + ChunkSeparator);
        BlockAppended(before, doc, codeStr);
        FormatDocsSnoc(matched, i);
        i := i + 1;
      }
      assert matched[..i] == matched;
    }

    /** `search_vectordb(code_needed)` */
    method SearchVectordb(codeNeeded: string, search: Search) returns (codeStr: string)
      ensures codeStr == SearchResult(indexName, codeNeeded, search)
    {
      codeStr := "";
      var seen: set<string> := {};
      var lines := Split(codeNeeded, "\n");
      ghost var results := LineResults(indexName, lines, search);
      var i := 0;
      while i < |lines|
        invariant 0 <= i <= |lines|
        invariant codeStr == Concat(Distinct(results[..i]))
        invariant forall x :: x in seen <==> x in Distinct(results[..i])
      {
        var code := lines[i];
        var file := Split(code, " ")[0];
        var s := RetrieveEmbeddings(code, 1, Some(file), search);
        assert s == results[i];
        SearchStep(results, i, seen);
        if s !in seen {
          codeStr := codeStr + s;
          seen := seen + {s};
        }
        i := i + 1;
      }
      assert results[..i] == results;
    }
  }

  // ---------------------------------------------------------------------
  // The files `load_docs` reads
  // ---------------------------------------------------------------------

  /** A loaded document: the full path as `source`, the file name as `file`. */
  datatype Document = Document(source: string, file: string, content: string)

  /** The documents of the walked files that are not skipped, in walk order. */
  function KeptDocs(walked: seq<WalkedFile>, cfg: IgnoreConfig): seq<Document>
    decreases |walked|
  {
    if walked == [] then []
    else
      var w := walked[|walked| - 1];
      KeptDocs(walked[..|walked| - 1], cfg)
      + (if SkippedFile(w.name, cfg) then [] else [Document(PathJoin(w.root, w.name), w.name, w.content)])
  }

  /** A walked file is loaded exactly when it is not skipped. */
  lemma {:induction false} KeptDocsSpec(walked: seq<WalkedFile>, cfg: IgnoreConfig)
    ensures forall d :: d in KeptDocs(walked, cfg) ==> !SkippedFile(d.file, cfg)
    ensures forall w :: w in walked && !SkippedFile(w.name, cfg) ==>
      Document(PathJoin(w.root, w.name), w.name, w.content) in KeptDocs(walked, cfg)
    decreases |walked|
  {
    if walked != [] {
      var init := walked[..|walked| - 1];
      KeptDocsSpec(init, cfg);
      assert forall w :: w in walked ==> w in init || w == walked[|walked| - 1];
    }
  }

  /** `load_docs(directory)` over the tree of `directory`. */
  method LoadDocs(directory: string, tree: seq<Entry>, cfg: IgnoreConfig) returns (docs: seq<Document>)
    ensures docs == KeptDocs(Walk(directory, tree, cfg.directories), cfg)
  {
    var walked := Walk(directory, tree, cfg.directories);
    docs := [];
    var i := 0;
    while i < |walked|
      invariant 0 <= i <= |walked|
      invariant docs == KeptDocs(walked[..i], cfg)
    {
      var w := walked[i];
      assert walked[..i + 1][..i] == walked[..i];
      if !SkippedFile(w.name, cfg) {
        docs := docs + [Document(PathJoin(w.root, w.name), w.name, w.content)];
      }
      i := i + 1;
    }
    assert walked[..i] == walked;
  }
}
