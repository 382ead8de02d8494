/** The document panel: a library of uploaded documents with a word-count summary,
    deletion by id, and a simulated semantic search (a substring filter, a random
    relevance score and a sort by that score). The React state hooks become the
    fields of class `DocumentLibrary`. */
module Documents {
  import opened Text
  import opened Optional

  /** A browser `File` as the upload handler reads it. */
  datatype FileInfo = FileInfo(name: string, fileType: string, size: nat)

  datatype Document = Document(
    id: string,
    name: string,
    fileType: string,
    size: nat,
    uploadedAt: Timestamp,
    content: string,
    summary: Option<string>)

  datatype SearchResult = SearchResult(
    document: Document,
    relevanceScore: real,
    matchingChunks: seq<string>)

  const SummaryWordLimit: nat := 50
  const ChunkLength: nat := 200

  // ---------------------------------------------------------------------------
  // Summary
  // ---------------------------------------------------------------------------

  /** `generateSummary`: the first 50 space-separated words, rejoined, then "...". */
  function GenerateSummary(content: string): (r: string)
    ensures |r| >= 3 && r[|r| - 3..] == "..."
  {
    var words := Split(content);
    Join(words[..Min(SummaryWordLimit, |words|)]) + "..."
  }

  /** Before its "...", a summary is a prefix of the content made of exactly the
      content's first min(50, k) words; content of at most 50 words is kept whole. */
  lemma SummaryKeepsFirstWords(content: string)
    ensures var r := GenerateSummary(content);
            var words := Split(content);
            var body := r[..|r| - 3];
            && body <= content
            && Split(body) == words[..Min(SummaryWordLimit, |words|)]
            && (|words| <= SummaryWordLimit ==> r == content + "...")
  {
    var words := Split(content);
    var m := Min(SummaryWordLimit, |words|);
    var r := GenerateSummary(content);
    var body := Join(words[..m]);
    assert r == body + "...";
    assert r[..|r| - 3] == body;
    JoinSplit(content);
    JoinPrefix(words, m);
    assert NoSpaces(words[..m]) by {
      forall k | 0 <= k < m ensures ' ' !in words[..m][k] {
        assert words[..m][k] == words[k];
      }
    }
    SplitJoin(words[..m]);
    if |words| <= SummaryWordLimit {
      assert words[..m] == words;
    }
  }

  // ---------------------------------------------------------------------------
  // Deletion
  // ---------------------------------------------------------------------------

  /** `documents.filter(doc => doc.id !== id)` */
  function Without(docs: seq<Document>, id: string): (r: seq<Document>)
    ensures |r| <= |docs|
    ensures forall d :: d in r <==> d in docs && d.id != id
  {
    if docs == [] then []
    else (if docs[0].id == id then [] else [docs[0]]) + Without(docs[1..], id)
  }

  /** Deletion keeps the remaining documents in their order: it distributes over
      concatenation, so every surviving document keeps its place relative to the others. */
  lemma {:induction false} WithoutAppend(a: seq<Document>, b: seq<Document>, id: string)
    ensures Without(a + b, id) == Without(a, id) + Without(b, id)
  {
    if a != [] {
      assert (a + b)[0] == a[0];
      assert (a + b)[1..] == a[1..] + b;
      WithoutAppend(a[1..], b, id);
      var head := if a[0].id == id then [] else [a[0]];
      assert Without(a + b, id) == head + Without(a[1..] + b, id);
      assert Without(a, id) == head + Without(a[1..], id);
    } else {
      assert a + b == b;
    }
  }

  /** A library without the id is left as it is: deleting twice is deleting once. */
  lemma {:induction false} WithoutAbsent(docs: seq<Document>, id: string)
    requires forall k :: 0 <= k < |docs| ==> docs[k].id != id
    ensures Without(docs, id) == docs
  {
    if docs != [] {
      WithoutAbsent(docs[1..], id);
    }
  }

  lemma WithoutIdempotent(docs: seq<Document>, id: string)
    ensures Without(Without(docs, id), id) == Without(docs, id)
  {
    var r := Without(docs, id);
    forall k | 0 <= k < |r| ensures r[k].id != id {
      assert r[k] in r;
    }
    WithoutAbsent(r, id);
  }

  // ---------------------------------------------------------------------------
  // Search
  // ---------------------------------------------------------------------------

  /** A value `Math.random()` can return. */
  predicate IsDraw(r: real) { 0.0 <= r < 1.0 }

  /** `Math.random() * 0.5 + 0.5` for a draw r of `Math.random()`. */
  function Score(r: real): (s: real)
    requires IsDraw(r)
    ensures 0.5 <= s < 1.0
  {
    r * 0.5 + 0.5
  }

  /** `doc.content.substring(0, 200) + '...'` */
  function Chunk(content: string): string {
    Prefix(content, ChunkLength) + "..."
  }

  /** `documents.map(doc => ({ document: doc, relevanceScore, matchingChunks }))` */
  function Scored(docs: seq<Document>, draws: seq<real>): seq<SearchResult>
    requires |draws| == |docs| && forall k :: 0 <= k < |draws| ==> IsDraw(draws[k])
  {
    seq(|docs|, k requires 0 <= k < |docs| =>
      SearchResult(docs[k], Score(draws[k]), [Chunk(docs[k].content)]))
  }

  /** The filter of the search: the lower-cased content or name contains the
      lower-cased query. `lower` stands for `String.prototype.toLowerCase`. */
  predicate Matches(doc: Document, query: string, lower: string -> string) {
    Contains(lower(doc.content), lower(query)) || Contains(lower(doc.name), lower(query))
  }

  function KeepMatching(rs: seq<SearchResult>, query: string, lower: string -> string): seq<SearchResult> {
    if rs == [] then []
    else (if Matches(rs[0].document, query, lower) then [rs[0]] else [])
         + KeepMatching(rs[1..], query, lower)
  }

  /** The documents that match, in library order: what the search should find. */
  function MatchingDocuments(docs: seq<Document>, query: string, lower: string -> string): seq<Document> {
    if docs == [] then []
    else (if Matches(docs[0], query, lower) then [docs[0]] else [])
         + MatchingDocuments(docs[1..], query, lower)
  }

  function DocumentsOf(rs: seq<SearchResult>): seq<Document> {
    seq(|rs|, k requires 0 <= k < |rs| => rs[k].document)
  }

  predicate SortedByScore(rs: seq<SearchResult>) {
    forall j, k :: 0 <= j < k < |rs| ==> rs[j].relevanceScore >= rs[k].relevanceScore
  }

  /** Put r before the first element whose score is not higher, so equal scores
      keep their order (`Array.prototype.sort` is stable). */
  function InsertByScore(r: SearchResult, sorted: seq<SearchResult>): seq<SearchResult> {
    if sorted == [] || sorted[0].relevanceScore <= r.relevanceScore then [r] + sorted
    else [sorted[0]] + InsertByScore(r, sorted[1..])
  }

  lemma {:induction false} InsertPermutes(r: SearchResult, sorted: seq<SearchResult>)
    ensures multiset(InsertByScore(r, sorted)) == multiset(sorted) + multiset{r}
  {
    if !(sorted == [] || sorted[0].relevanceScore <= r.relevanceScore) {
      InsertPermutes(r, sorted[1..]);
      assert sorted == [sorted[0]] + sorted[1..];
    }
  }

  lemma {:induction false} InsertSorted(r: SearchResult, sorted: seq<SearchResult>)
    requires SortedByScore(sorted)
    ensures SortedByScore(InsertByScore(r, sorted))
  {
    if !(sorted == [] || sorted[0].relevanceScore <= r.relevanceScore) {
      var rest := InsertByScore(r, sorted[1..]);
      InsertSorted(r, sorted[1..]);
      InsertPermutes(r, sorted[1..]);
      forall k | 0 <= k < |rest| ensures sorted[0].relevanceScore >= rest[k].relevanceScore {
        assert rest[k] in multiset(rest);
        if rest[k] != r {
          assert rest[k] in sorted[1..];
          var m :| 0 <= m < |sorted[1..]| && sorted[1..][m] == rest[k];
          assert sorted[1 + m] == rest[k];
        }
      }
      var out := [sorted[0]] + rest;
      forall j, k | 0 <= j < k < |out| ensures out[j].relevanceScore >= out[k].relevanceScore {
        if j > 0 {
          assert out[j] == rest[j - 1] && out[k] == rest[k - 1];
        } else {
          assert out[k] == rest[k - 1];
        }
      }
    }
  }

  /** `.sort((a, b) => b.relevanceScore - a.relevanceScore)` */
  function SortByScore(rs: seq<SearchResult>): (out: seq<SearchResult>)
    ensures SortedByScore(out)
    ensures multiset(out) == multiset(rs)
  {
    if rs == [] then []
    else
      var rest := SortByScore(rs[1..]);
      InsertSorted(rs[0], rest);
      InsertPermutes(rs[0], rest);
      assert rs == [rs[0]] + rs[1..];
      InsertByScore(rs[0], rest)
  }

  /** The results `performSemanticSearch` stores when its guard lets it through. */
  function SearchResults(docs: seq<Document>, query: string, draws: seq<real>, lower: string -> string): seq<SearchResult>
    requires |draws| == |docs| && forall k :: 0 <= k < |draws| ==> IsDraw(draws[k])
  {
    SortByScore(KeepMatching(Scored(docs, draws), query, lower))
  }

  /** A result as the pipeline builds it: a score in [0.5, 1) and one chunk, the
      first 200 characters of the content followed by "...". */
  predicate WellFormed(r: SearchResult) {
    && 0.5 <= r.relevanceScore < 1.0
    && r.matchingChunks == [Prefix(r.document.content, ChunkLength) + "..."]
  }

  lemma {:induction false} KeepMatchingKeeps(rs: seq<SearchResult>, query: string, lower: string -> string)
    ensures forall r :: r in KeepMatching(rs, query, lower) <==> r in rs && Matches(r.document, query, lower)
  {
    if rs != [] {
      KeepMatchingKeeps(rs[1..], query, lower);
      assert rs == [rs[0]] + rs[1..];
    }
  }

  /** A document is among the matching documents exactly when it is in the
      library and matches the query. */
  lemma {:induction false} MatchingDocumentsKeeps(docs: seq<Document>, query: string, lower: string -> string)
    ensures forall d :: d in MatchingDocuments(docs, query, lower) <==> d in docs && Matches(d, query, lower)
  {
    if docs != [] {
      MatchingDocumentsKeeps(docs[1..], query, lower);
      assert docs == [docs[0]] + docs[1..];
    }
  }

  /** Filtering the scored list picks out exactly the matching documents, in order. */
  lemma {:induction false} KeepMatchingDocuments(docs: seq<Document>, draws: seq<real>, query: string, lower: string -> string)
    requires |draws| == |docs| && forall k :: 0 <= k < |draws| ==> IsDraw(draws[k])
    ensures DocumentsOf(KeepMatching(Scored(docs, draws), query, lower)) == MatchingDocuments(docs, query, lower)
  {
    if docs != [] {
      var rs := Scored(docs, draws);
      assert rs[1..] == Scored(docs[1..], draws[1..]);
      KeepMatchingDocuments(docs[1..], draws[1..], query, lower);
      var head := if Matches(docs[0], query, lower) then [rs[0]] else [];
      var tail := KeepMatching(rs[1..], query, lower);
      assert KeepMatching(rs, query, lower) == head + tail;
      assert DocumentsOf(head + tail) == DocumentsOf(head) + DocumentsOf(tail);
    }
  }

  lemma {:induction false} SortKeepsDocuments(rs: seq<SearchResult>)
    ensures multiset(DocumentsOf(SortByScore(rs))) == multiset(DocumentsOf(rs))
  {
    if rs != [] {
      SortKeepsDocuments(rs[1..]);
      InsertKeepsDocuments(rs[0], SortByScore(rs[1..]));
      assert DocumentsOf(rs) == [rs[0].document] + DocumentsOf(rs[1..]);
    }
  }

  lemma {:induction false} InsertKeepsDocuments(r: SearchResult, sorted: seq<SearchResult>)
    ensures multiset(DocumentsOf(InsertByScore(r, sorted))) == multiset(DocumentsOf(sorted)) + multiset{r.document}
  {
    if sorted == [] || sorted[0].relevanceScore <= r.relevanceScore {
      assert DocumentsOf([r] + sorted) == [r.document] + DocumentsOf(sorted);
    } else {
      InsertKeepsDocuments(r, sorted[1..]);
      var rest := InsertByScore(r, sorted[1..]);
      assert DocumentsOf([sorted[0]] + rest) == [sorted[0].document] + DocumentsOf(rest);
      assert DocumentsOf(sorted) == [sorted[0].document] + DocumentsOf(sorted[1..]);
    }
  }

  /** The search finds exactly the documents whose lower-cased content or name
      contains the lower-cased query, each matching document once; the results
      are ordered by non-increasing score, every score lies in [0.5, 1) and every
      result carries the 200-character chunk of its document. */
  lemma SearchFindsMatches(docs: seq<Document>, query: string, draws: seq<real>, lower: string -> string)
    requires |draws| == |docs| && forall k :: 0 <= k < |draws| ==> IsDraw(draws[k])
    ensures var rs := SearchResults(docs, query, draws, lower);
            && multiset(DocumentsOf(rs)) == multiset(MatchingDocuments(docs, query, lower))
            && SortedByScore(rs)
            && forall r :: r in rs ==> WellFormed(r) && Matches(r.document, query, lower)
  {
    var scored := Scored(docs, draws);
    var kept := KeepMatching(scored, query, lower);
    var rs := SortByScore(kept);
    KeepMatchingDocuments(docs, draws, query, lower);
    SortKeepsDocuments(kept);
    KeepMatchingKeeps(scored, query, lower);
    forall r | r in rs ensures WellFormed(r) && Matches(r.document, query, lower) {
      assert r in multiset(kept);
      var k :| 0 <= k < |scored| && scored[k] == r;
    }
  }

  lemma SameMembers(a: seq<Document>, b: seq<Document>)
    requires multiset(a) == multiset(b)
    ensures forall d :: d in a <==> d in b
  {
    forall d ensures d in a <==> d in b {
      assert d in a <==> d in multiset(a);
      assert d in b <==> d in multiset(b);
    }
  }

  /** Every document of the library that matches the query is among the results,
      and nothing else is. */
  lemma SearchFindsEveryMatch(docs: seq<Document>, query: string, draws: seq<real>, lower: string -> string)
    requires |draws| == |docs| && forall k :: 0 <= k < |draws| ==> IsDraw(draws[k])
    ensures forall d :: d in DocumentsOf(SearchResults(docs, query, draws, lower)) <==> d in docs && Matches(d, query, lower)
  {
    var kept := KeepMatching(Scored(docs, draws), query, lower);
    KeepMatchingDocuments(docs, draws, query, lower);
    SortKeepsDocuments(kept);
    SameMembers(DocumentsOf(SortByScore(kept)), MatchingDocuments(docs, query, lower));
    MatchingDocumentsKeeps(docs, query, lower);
  }

  // ---------------------------------------------------------------------------
  // Upload
  // ---------------------------------------------------------------------------

  /** The document built for a file whose text has been extracted. */
  function NewDocument(file: FileInfo, id: string, at: Timestamp, content: string): Document {
    Document(id, file.name, file.fileType, file.size, at, content, Some(GenerateSummary(content)))
  }

  /** How many files are read before the first None text, a throw (all of them
      when none fails). */
  function Processed(texts: seq<Option<string>>): (k: nat)
    ensures k <= |texts|
    ensures forall j :: 0 <= j < k ==> texts[j].Some?
    ensures k < |texts| ==> texts[k].None?
  {
    if texts == [] || texts[0].None? then 0 else 1 + Processed(texts[1..])
  }

  /** The documents made from the first k files. */
  function Uploaded(files: seq<FileInfo>, ids: seq<string>, times: seq<Timestamp>, texts: seq<Option<string>>, k: nat)
    : seq<Document>
    requires k <= |files| == |ids| == |times| == |texts|
    requires forall j :: 0 <= j < k ==> texts[j].Some?
  {
    seq(k, j requires 0 <= j < k => NewDocument(files[j], ids[j], times[j], texts[j].value))
  }

  /** `(i / files.length) * 100`, the progress shown while file i is read. */
  function UploadProgress(i: nat, n: nat): real
    requires n > 0
  {
    (i as real / n as real) * 100.0
  }

  lemma UploadProgressBelowFull(i: nat, n: nat)
    requires i < n
    ensures 0.0 <= UploadProgress(i, n) < 100.0
  {
    var q := i as real / n as real;
    assert q * (n as real) == i as real;
  }

  /** The library state an observer sees while a handler waits. */
  datatype View = View(documents: seq<Document>, isUploading: bool, uploadProgress: real, isSearching: bool)

  class DocumentLibrary {
    var documents: seq<Document>
    var isUploading: bool
    var uploadProgress: real
    var searchQuery: string
    var searchResults: seq<SearchResult>
    var isSearching: bool
    /** The state at every point where a handler waits, oldest first. */
    ghost var observed: seq<View>

    function Snapshot(): View
      reads this
    {
      View(documents, isUploading, uploadProgress, isSearching)
    }

    constructor ()
      ensures documents == [] && !isUploading && uploadProgress == 0.0
      ensures searchQuery == "" && searchResults == [] && !isSearching && observed == []
    {
      documents, isUploading, uploadProgress := [], false, 0.0;
      searchQuery, searchResults, isSearching := "", [], false;
      observed := [];
    }

    /** `handleFileUpload`: one document per file, appended in file order, until
        a throw inside the try block (a None text); then, success or not, the flags are reset. The file
        input is disabled while an upload is in progress. */
    method HandleFileUpload(files: seq<FileInfo>, ids: seq<string>, times: seq<Timestamp>,
                            texts: seq<Option<string>>)
      requires |ids| == |files| && |times| == |files| && |texts| == |files|
      requires !isUploading
      modifies this
      ensures files == [] ==>
                documents == old(documents) && uploadProgress == old(uploadProgress) && observed == old(observed)
      ensures files != [] ==>
                && documents == old(documents) + Uploaded(files, ids, times, texts, Processed(texts))
                && uploadProgress == 0.0
                && |observed| == |old(observed)| + Min(Processed(texts) + 1, |files|)
                && forall j :: 0 <= j < |observed| - |old(observed)| ==>
                     observed[|old(observed)| + j] ==
                       View(old(documents) + Uploaded(files, ids, times, texts, j), true,
                            UploadProgress(j, |files|), old(isSearching))
      ensures !isUploading
      ensures searchQuery == old(searchQuery) && searchResults == old(searchResults)
      ensures isSearching == old(isSearching)
    {
      if |files| == 0 {
        return;
      }
      ghost var docs0 := documents;
      ghost var seen0 := observed;
      var n := |files|;
      isUploading := true;
      uploadProgress := 0.0;
      var i := 0;
      while i < n
        invariant 0 <= i <= Processed(texts)
        invariant isUploading && searchQuery == old(searchQuery)
        invariant searchResults == old(searchResults) && isSearching == old(isSearching)
        invariant documents == docs0 + Uploaded(files, ids, times, texts, i)
        invariant |observed| == |seen0| + i
        invariant forall j :: 0 <= j < i ==>
                    observed[|seen0| + j] ==
                      View(docs0 + Uploaded(files, ids, times, texts, j), true, UploadProgress(j, n), isSearching)
      {
        uploadProgress := UploadProgress(i, n);
        observed := observed + [Snapshot()];
        if texts[i].None? {
          // a throw inside the try block: the catch reports it and the loop is over
          break;
        }
        var doc := NewDocument(files[i], ids[i], times[i], texts[i].value);
        // the simulated embedding delay happens here
        assert Uploaded(files, ids, times, texts, i + 1) == Uploaded(files, ids, times, texts, i) + [doc];
        documents := documents + [doc];
        i := i + 1;
      }
      isUploading := false;
      uploadProgress := 0.0;
    }

    /** `deleteDocument` */
    method DeleteDocument(id: string)
      modifies this
      ensures documents == Without(old(documents), id)
      ensures isUploading == old(isUploading) && uploadProgress == old(uploadProgress)
      ensures searchQuery == old(searchQuery) && searchResults == old(searchResults)
      ensures isSearching == old(isSearching) && observed == old(observed)
    {
      documents := Without(documents, id);
    }

    /** `performSemanticSearch`, with `draws` the values `Math.random()` returns,
        one per document in library order, and `lower` for `toLowerCase`. A blank
        query or an empty library does nothing. */
    method PerformSemanticSearch(draws: seq<real>, lower: string -> string)
      requires |draws| == |documents| && forall k :: 0 <= k < |draws| ==> IsDraw(draws[k])
      modifies this
      ensures documents == old(documents) && searchQuery == old(searchQuery)
      ensures IsBlank(old(searchQuery)) || old(documents) == [] ==>
                searchResults == old(searchResults) && isSearching == old(isSearching) && observed == old(observed)
      ensures !(IsBlank(old(searchQuery)) || old(documents) == []) ==>
                && searchResults == SearchResults(documents, searchQuery, draws, lower)
                && !isSearching
                && observed == old(observed) + [View(documents, isUploading, uploadProgress, true)]
      ensures isUploading == old(isUploading) && uploadProgress == old(uploadProgress)
    {
      if IsBlank(searchQuery) || |documents| == 0 {
        return;
      }
      isSearching := true;
      // the simulated search delay happens here
      observed := observed + [Snapshot()];
      searchResults := SearchResults(documents, searchQuery, draws, lower);
      isSearching := false;
    }
  }
}
