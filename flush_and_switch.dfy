/** The data-import and validation side of the flush-and-switch chaos scenario: turning dataset
    records (one article with its paragraphs per line) into Paragraph objects with deterministic
    ids, importing them one by one through a client that can fail, and the checks run afterwards
    (every id exists, duplicates among the ids, deletion by id). */
module FlushAndSwitch {
  import opened Wrappers
  import opened Seqs
  import opened Strings

  /** Paragraph content is cut into pieces of at most this many characters. */
  const ChunkSize: nat := 825

  /** The collection the article objects would go to. */
  const ArticleCollection: string := "Article"

  /** The separator between the article key and the paragraph number in a paragraph key. */
  const ParagraphInfix: string := "___paragraph___"

  // ---------------------------------------------------------------------------------------------
  // Dataset records and batch objects

  /** One paragraph of a dataset record; `title` is absent for paragraphs without a heading. */
  datatype Paragraph = Paragraph(content: string, count: int, title: Option<string>)

  /** One parsed dataset line: an article title and its paragraphs. */
  datatype Article = Article(title: string, paragraphs: seq<Paragraph>)

  /** The properties of an object to create; a paragraph's `title` is present exactly when its
      dataset paragraph has one. */
  datatype Properties =
    | ArticleProperties(articleTitle: string)
    | ParagraphProperties(content: string, order: int, wordCount: nat, title: Option<string>)

  /** The triple handed to the client's create call: properties, collection name, object id. */
  datatype BatchObject = BatchObject(properties: Properties, collection: string, id: string)

  // ---------------------------------------------------------------------------------------------
  // chunks

  /** Successive pieces of `lst` of length `n`, the last one possibly shorter: the pieces
      `lst[i..i+n]` (clamped at the end) for `i` = 0, n, 2n, ... */
  function Chunks<T>(lst: seq<T>, n: nat): (r: seq<seq<T>>)
    requires n > 0
    ensures forall k :: 0 <= k < |r| ==> 0 < |r[k]| <= n
    ensures forall k :: 0 <= k < |r| - 1 ==> |r[k]| == n
    decreases |lst|
  {
    if |lst| == 0 then []
    else if |lst| <= n then [lst]
    else
      var rest := Chunks(lst[n..], n);
      assert ([lst[..n]] + rest)[1..] == rest;
      [lst[..n]] + rest
  }

  /** The chunks concatenate back to the list. */
  lemma {:induction false} ChunksConcatenate<T>(lst: seq<T>, n: nat)
    requires n > 0
    ensures Flatten(Chunks(lst, n)) == lst
    decreases |lst|
  {
    if |lst| > n {
      var rest := Chunks(lst[n..], n);
      ChunksConcatenate(lst[n..], n);
      assert ([lst[..n]] + rest)[1..] == rest;
      assert lst == lst[..n] + lst[n..];
    }
  }

  /** There are `ceil(|lst| / n)` chunks. */
  lemma {:induction false} ChunkCountBounds<T>(lst: seq<T>, n: nat)
    requires n > 0
    ensures (|Chunks(lst, n)| - 1) * n < |lst| <= |Chunks(lst, n)| * n
    decreases |lst|
  {
    if |lst| > n {
      var c := |Chunks(lst[n..], n)|;
      ChunkCountBounds(lst[n..], n);
      assert |Chunks(lst, n)| == c + 1;
      CountBoundStep(c, n, |lst|);
    }
  }

  /** One more chunk of `n` elements moves both bounds by `n`. */
  lemma CountBoundStep(c: int, n: int, m: int)
    requires (c - 1) * n < m - n <= c * n
    ensures ((c + 1) - 1) * n < m <= (c + 1) * n
  {
    assert (c + 1) * n == c * n + n;
  }

  /** The k-th chunk is the slice of `lst` that starts at `k * n`. */
  lemma ChunkIsSlice<T>(lst: seq<T>, n: nat, k: nat)
    requires n > 0 && k < |Chunks(lst, n)|
    ensures k * n < |lst|
    ensures Chunks(lst, n)[k] == lst[k * n .. if k * n + n <= |lst| then k * n + n else |lst|]
  {
    ChunkAtStart(lst, n, k);
    ChunkStartIsProduct(k, n);
  }

  /** Where chunk `k` starts: `n` added `k` times. */
  function ChunkStart(k: nat, n: nat): nat
  {
    if k == 0 then 0 else n + ChunkStart(k - 1, n)
  }

  lemma {:induction false} ChunkStartIsProduct(k: nat, n: nat)
    ensures ChunkStart(k, n) == k * n
  {
    if k > 0 {
      ChunkStartIsProduct(k - 1, n);
      assert k * n == (k - 1) * n + n;
    }
  }

  lemma {:induction false} ChunkAtStart<T>(lst: seq<T>, n: nat, k: nat)
    requires n > 0 && k < |Chunks(lst, n)|
    ensures ChunkStart(k, n) < |lst|
    ensures Chunks(lst, n)[k]
         == lst[ChunkStart(k, n) .. if ChunkStart(k, n) + n <= |lst| then ChunkStart(k, n) + n else |lst|]
    decreases k
  {
    if k == 0 {
      FirstChunk(lst, n);
      assert ChunkStart(k, n) == 0;
    } else {
      LaterChunk(lst, n, k);
      var rest := lst[n..];
      ChunkAtStart(rest, n, k - 1);
      var start := ChunkStart(k - 1, n);
      assert ChunkStart(k, n) == n + start;
      var stop := if start + n <= |rest| then start + n else |rest|;
      assert (if ChunkStart(k, n) + n <= |lst| then ChunkStart(k, n) + n else |lst|) == n + stop;
      SliceOfSuffix(lst, n, start, stop);
    }
  }

  lemma FirstChunk<T>(lst: seq<T>, n: nat)
    requires n > 0 && |Chunks(lst, n)| > 0
    ensures |lst| > 0 && Chunks(lst, n)[0] == lst[..if n <= |lst| then n else |lst|]
  {
  }

  /** The chunks after the first are the chunks of what follows the first `n` elements. */
  lemma LaterChunk<T>(lst: seq<T>, n: nat, k: nat)
    requires n > 0 && 0 < k < |Chunks(lst, n)|
    ensures |lst| > n && k - 1 < |Chunks(lst[n..], n)|
    ensures Chunks(lst, n)[k] == Chunks(lst[n..], n)[k - 1]
  {
    ChunksBeyondFirst(lst, n);
    ChunksStep(lst, n);
    var rest := Chunks(lst[n..], n);
    assert ([lst[..n]] + rest)[k] == rest[k - 1];
  }

  /** More than one chunk means more than `n` elements. */
  lemma ChunksBeyondFirst<T>(lst: seq<T>, n: nat)
    requires n > 0 && |Chunks(lst, n)| > 1
    ensures |lst| > n
  {
  }

  /** Past `n` elements, the first chunk is the first `n` and the others are the chunks of the rest. */
  lemma ChunksStep<T>(lst: seq<T>, n: nat)
    requires n > 0 && |lst| > n
    ensures Chunks(lst, n) == [lst[..n]] + Chunks(lst[n..], n)
  {
  }

  lemma SliceOfSuffix<T>(lst: seq<T>, n: nat, start: nat, stop: nat)
    requires n <= |lst| && start <= stop <= |lst| - n
    ensures lst[n..][start..stop] == lst[n + start .. n + stop]
  {
  }

  /** A paragraph of `m` characters gives `ceil(m / 825)` chunks: none for an empty paragraph,
      and one for a paragraph of at most 825 characters. */
  lemma ChunkCount(content: string)
    ensures content == [] ==> Chunks(content, ChunkSize) == []
    ensures 0 < |content| <= ChunkSize ==> Chunks(content, ChunkSize) == [content]
    ensures |content| > ChunkSize ==> |Chunks(content, ChunkSize)| >= 2
  {
    ChunkCountBounds(content, ChunkSize);
  }

  // ---------------------------------------------------------------------------------------------
  // Deterministic keys

  /** The key an article's id is derived from: its title with spaces turned into underscores. */
  function ArticleKey(title: string): (key: string)
    ensures |key| == |title| && ' ' !in key
  {
    ReplaceChar(title, ' ', '_')
  }

  /** The key a paragraph chunk's id is derived from: the article key, the infix, then the
      paragraph's `count` and the chunk's index written one after the other without a separator. */
  function ParagraphKey(articleTitle: string, count: int, chunkIndex: nat): (r: string)
    ensures StartsWith(r, ArticleKey(articleTitle) + ParagraphInfix)
  {
    ArticleKey(articleTitle) + ParagraphInfix + IntToDecimal(count) + NatToDecimal(chunkIndex)
  }

  /** Titles that differ only in spaces versus underscores give the same article key. */
  lemma ArticleKeysConflateSpaces()
    ensures ArticleKey("New York") == ArticleKey("New_York")
  {
  }

  /** Within one paragraph, different chunks get different keys. */
  lemma ChunkKeysDiffer(articleTitle: string, count: int, i: nat, j: nat)
    requires i != j
    ensures ParagraphKey(articleTitle, count, i) != ParagraphKey(articleTitle, count, j)
  {
    var prefix := ArticleKey(articleTitle) + ParagraphInfix + IntToDecimal(count);
    if ParagraphKey(articleTitle, count, i) == ParagraphKey(articleTitle, count, j) {
      var a, b := prefix + NatToDecimal(i), prefix + NatToDecimal(j);
      assert a[|prefix|..] == NatToDecimal(i) && b[|prefix|..] == NatToDecimal(j);
      NatToDecimalInjective(i, j);
    }
  }

  /** Because the count and the chunk index are written without a separator, chunk 12 of
      paragraph 1 and chunk 2 of paragraph 11 of the same article share a key, and so an id. */
  lemma ParagraphKeysCollide(articleTitle: string)
    ensures ParagraphKey(articleTitle, 1, 12) == ParagraphKey(articleTitle, 11, 2)
  {
    assert NatToDecimal(12) == "12" && NatToDecimal(11) == "11";
    assert IntToDecimal(1) == "1" && IntToDecimal(11) == "11";
    assert IntToDecimal(1) + NatToDecimal(12) == IntToDecimal(11) + NatToDecimal(2);
  }

  // ---------------------------------------------------------------------------------------------
  // add_article_to_batch and add_paragraph_to_batch

  /** The article object of a record; `uuid3` gives the text of the name-based id of a key. */
  function AddArticleToBatch(parsedLine: Article, uuid3: string -> string): (obj: BatchObject)
    ensures obj.properties == ArticleProperties(parsedLine.title)
    ensures obj.collection == ArticleCollection
    ensures obj.id == uuid3(ArticleKey(parsedLine.title))
  {
    BatchObject(ArticleProperties(parsedLine.title), ArticleCollection, uuid3(ArticleKey(parsedLine.title)))
  }

  /** A paragraph whose heading contains a colon is a wiki meta paragraph and yields no objects. */
  predicate IsWikiParagraph(p: Paragraph)
  {
    p.title.Some? && ':' in p.title.value
  }

  /** The object for chunk `k` of paragraph `p`. */
  function ChunkObject(articleTitle: string, p: Paragraph, chunks: seq<string>, k: nat,
                       collection: string, uuid3: string -> string): BatchObject
    requires k < |chunks|
  {
    BatchObject(ParagraphProperties(chunks[k], p.count, |chunks[k]|, p.title), collection,
                uuid3(ParagraphKey(articleTitle, p.count, k)))
  }

  /** The objects the first `k` chunks of `p` contribute (chunk by chunk, skipping every chunk of
      a wiki paragraph). */
  function ChunkObjects(articleTitle: string, p: Paragraph, chunks: seq<string>, k: nat,
                        collection: string, uuid3: string -> string): seq<BatchObject>
    requires k <= |chunks|
    decreases k
  {
    if k == 0 then []
    else
      ChunkObjects(articleTitle, p, chunks, k - 1, collection, uuid3)
      + (if IsWikiParagraph(p) then [] else [ChunkObject(articleTitle, p, chunks, k - 1, collection, uuid3)])
  }

  /** The objects one paragraph contributes. */
  function ParagraphObjects(articleTitle: string, p: Paragraph, collection: string,
                            uuid3: string -> string): seq<BatchObject>
  {
    var chunks := Chunks(p.content, ChunkSize);
    ChunkObjects(articleTitle, p, chunks, |chunks|, collection, uuid3)
  }

  /** The objects a list of paragraphs contributes, paragraph after paragraph. */
  function ArticleParagraphObjects(articleTitle: string, ps: seq<Paragraph>, collection: string,
                                   uuid3: string -> string): seq<BatchObject>
  {
    FlatMap(ps, ParagraphObjectsOf(articleTitle, collection, uuid3))
  }

  function ParagraphObjectsOf(articleTitle: string, collection: string, uuid3: string -> string)
    : Paragraph -> seq<BatchObject>
  {
    p => ParagraphObjects(articleTitle, p, collection, uuid3)
  }

  /** The contents of a list of paragraph objects. */
  function Contents(objs: seq<BatchObject>): seq<string>
  {
    seq(|objs|, k requires 0 <= k < |objs| =>
      if objs[k].properties.ParagraphProperties? then objs[k].properties.content else [])
  }

  /** What the chunk objects of one paragraph look like. */
  lemma {:induction false} ChunkObjectsShape(articleTitle: string, p: Paragraph, chunks: seq<string>,
                                             k: nat, collection: string, uuid3: string -> string)
    requires k <= |chunks|
    ensures var r := ChunkObjects(articleTitle, p, chunks, k, collection, uuid3);
      (IsWikiParagraph(p) ==> r == [])
      && (!IsWikiParagraph(p) ==>
            |r| == k
            && forall i :: 0 <= i < k ==> r[i] == ChunkObject(articleTitle, p, chunks, i, collection, uuid3))
    decreases k
  {
    if k > 0 {
      var prev := ChunkObjects(articleTitle, p, chunks, k - 1, collection, uuid3);
      ChunkObjectsShape(articleTitle, p, chunks, k - 1, collection, uuid3);
      if !IsWikiParagraph(p) {
        var last := ChunkObject(articleTitle, p, chunks, k - 1, collection, uuid3);
        var r := ChunkObjects(articleTitle, p, chunks, k, collection, uuid3);
        assert r == prev + [last];
        forall i | 0 <= i < k
          ensures r[i] == ChunkObject(articleTitle, p, chunks, i, collection, uuid3)
        {
          if i < k - 1 {
            assert r[i] == prev[i];
          }
        }
      }
    }
  }

  /** A paragraph with a colon in its heading yields nothing; any other paragraph yields one object
      per chunk, in order, whose contents put back together are the paragraph, each at most 825
      characters long with `word_count` its length, `order` the paragraph's count, the paragraph's
      heading if it has one, and the id of its paragraph key. */
  lemma ParagraphObjectsShape(articleTitle: string, p: Paragraph, collection: string,
                              uuid3: string -> string)
    ensures var r := ParagraphObjects(articleTitle, p, collection, uuid3);
      (IsWikiParagraph(p) ==> r == [])
      && (!IsWikiParagraph(p) ==>
            |r| == |Chunks(p.content, ChunkSize)|
            && Flatten(Contents(r)) == p.content
            && forall i :: 0 <= i < |r| ==>
                 && r[i].properties.ParagraphProperties?
                 && 0 < |r[i].properties.content| <= ChunkSize
                 && r[i].properties.wordCount == |r[i].properties.content|
                 && r[i].properties.order == p.count
                 && r[i].properties.title == p.title
                 && r[i].collection == collection
                 && r[i].id == uuid3(ParagraphKey(articleTitle, p.count, i)))
  {
    var chunks := Chunks(p.content, ChunkSize);
    var r := ChunkObjects(articleTitle, p, chunks, |chunks|, collection, uuid3);
    ChunkObjectsShape(articleTitle, p, chunks, |chunks|, collection, uuid3);
    ChunksConcatenate(p.content, ChunkSize);
    if !IsWikiParagraph(p) {
      assert Contents(r) == chunks;
    }
  }

  lemma ArticleParagraphObjectsConcat(articleTitle: string, a: seq<Paragraph>, b: seq<Paragraph>,
                                      collection: string, uuid3: string -> string)
    ensures ArticleParagraphObjects(articleTitle, a + b, collection, uuid3)
         == ArticleParagraphObjects(articleTitle, a, collection, uuid3)
            + ArticleParagraphObjects(articleTitle, b, collection, uuid3)
  {
    FlatMapConcat(a, b, ParagraphObjectsOf(articleTitle, collection, uuid3));
  }

  /** The objects of an article are those of its paragraphs, one paragraph after another, and a
      paragraph of an article contributes exactly its own objects. */
  lemma ArticleObjectsByParagraph(articleTitle: string, ps: seq<Paragraph>, i: nat,
                                  collection: string, uuid3: string -> string)
    requires i < |ps|
    ensures ArticleParagraphObjects(articleTitle, ps, collection, uuid3)
         == ArticleParagraphObjects(articleTitle, ps[..i], collection, uuid3)
            + ParagraphObjects(articleTitle, ps[i], collection, uuid3)
            + ArticleParagraphObjects(articleTitle, ps[i + 1..], collection, uuid3)
  {
    assert ps == ps[..i + 1] + ps[i + 1..];
    ArticleParagraphObjectsConcat(articleTitle, ps[..i + 1], ps[i + 1..], collection, uuid3);
    assert ps[..i + 1][..i] == ps[..i];
  }

  /** The paragraph objects of a record: for every paragraph, for every chunk of its content,
      one object, skipping the chunks of wiki paragraphs. */
  method AddParagraphToBatch(parsedLine: Article, paragraphCollectionName: string,
                             uuid3: string -> string) returns (returnArray: seq<BatchObject>)
    ensures returnArray
         == ArticleParagraphObjects(parsedLine.title, parsedLine.paragraphs, paragraphCollectionName, uuid3)
  {
    var ps := parsedLine.paragraphs;
    returnArray := [];
    for i := 0 to |ps|
      invariant returnArray == ArticleParagraphObjects(parsedLine.title, ps[..i], paragraphCollectionName, uuid3)
    {
      var paragraphArray := ParagraphToBatch(parsedLine.title, ps[i], paragraphCollectionName, uuid3);
      returnArray := returnArray + paragraphArray;
      assert ps[..i + 1][..i] == ps[..i];
    }
    assert ps[..|ps|] == ps;
  }

  /** The body of the outer loop of `AddParagraphToBatch`: the objects of one paragraph, one per
      chunk of its content, none for a wiki paragraph. */
  method ParagraphToBatch(articleTitle: string, paragraph: Paragraph, paragraphCollectionName: string,
                          uuid3: string -> string) returns (returnArray: seq<BatchObject>)
    ensures returnArray == ParagraphObjects(articleTitle, paragraph, paragraphCollectionName, uuid3)
  {
    var chunkList := Chunks(paragraph.content, ChunkSize);
    returnArray := [];
    for chunkIndex := 0 to |chunkList|
      invariant returnArray
             == ChunkObjects(articleTitle, paragraph, chunkList, chunkIndex, paragraphCollectionName, uuid3)
    {
      var content := chunkList[chunkIndex];
      var addObject := ParagraphProperties(content, paragraph.count, |content|, None);
      if paragraph.title.Some? {
        if ':' in paragraph.title.value {
          continue;
        }
        addObject := addObject.(title := paragraph.title);
      }
      returnArray := returnArray + [BatchObject(addObject, paragraphCollectionName,
                       uuid3(ParagraphKey(articleTitle, paragraph.count, chunkIndex)))];
    }
  }

  // ---------------------------------------------------------------------------------------------
  // The client

  /** A call the import and delete code makes on the client, in the order made. */
  datatype Call =
    | CreateCall(obj: BatchObject)
    | CreateObjectsCall
    | FlushCall
    | DeleteObjectsCall(collection: string, valueTextArray: seq<string>)

  /** The database as the scenario sees it: the ids of the stored objects and the calls made. */
  class Client {
    var existing: set<string>
    var calls: seq<Call>

    constructor (stored: set<string>)
      ensures existing == stored && calls == []
    {
      existing := stored;
      calls := [];
    }

    /** `data_object.exists(id)`. */
    predicate Exists(id: string)
      reads this
    {
      id in existing
    }

    /** `data_object.create(properties, collection, id)`; when the call raises, nothing is stored. */
    method Create(obj: BatchObject, raises: bool)
      modifies this
      ensures calls == old(calls) + [CreateCall(obj)]
      ensures existing == if raises then old(existing) else old(existing) + {obj.id}
    {
      calls := calls + [CreateCall(obj)];
      if !raises {
        existing := existing + {obj.id};
      }
    }

    /** `batch.create_objects()`: nothing is queued in the batch, so nothing changes. */
    method CreateObjects()
      modifies this
      ensures calls == old(calls) + [CreateObjectsCall] && existing == old(existing)
    {
      calls := calls + [CreateObjectsCall];
    }

    /** `batch.flush()`. */
    method Flush()
      modifies this
      ensures calls == old(calls) + [FlushCall] && existing == old(existing)
    {
      calls := calls + [FlushCall];
    }

    /** `batch.delete_objects` with the filter "id is one of `ids`". */
    method DeleteObjects(collection: string, ids: seq<string>)
      modifies this
      ensures calls == old(calls) + [DeleteObjectsCall(collection, ids)]
      ensures existing == old(existing) - Elements(ids)
    {
      calls := calls + [DeleteObjectsCall(collection, ids)];
      existing := existing - Elements(ids);
    }
  }

  // ---------------------------------------------------------------------------------------------
  // import_data_without_crefs

  /** Where processing a record raises, counted over its paragraph objects: nowhere, in the
      existence check of object `at`, or in the create call of object `at`. */
  datatype Fault = NoFault | ExistsRaises(at: nat) | CreateRaises(at: nat)

  /** One line of the data file together with the fault its processing meets. */
  datatype Line = Line(article: Article, fault: Fault)

  /** The import's bookkeeping: the paragraph ids seen, the ids of the articles that raised, the
      two counters, the stored ids and the client calls made so far. */
  datatype ImportState = ImportState(uuidsP: seq<string>, uuidsEx: seq<string>, created: nat,
                                     failed: nat, existing: set<string>, calls: seq<Call>)

  function Start(stored: set<string>): ImportState
  {
    ImportState([], [], 0, 0, stored, [])
  }

  /** Handling paragraph object `o`, the `j`-th of its record: its id is recorded, then it is
      created unless it already exists; the flag says whether the record's processing raised. */
  function ObjectStep(s: ImportState, o: BatchObject, j: nat, fault: Fault): (r: (ImportState, bool))
    ensures r.0.uuidsP == s.uuidsP + [o.id] && r.0.uuidsEx == s.uuidsEx && r.0.failed == s.failed
    ensures r.1 <==> fault == ExistsRaises(j) || (fault == CreateRaises(j) && o.id !in s.existing)
  {
    var s1 := s.(uuidsP := s.uuidsP + [o.id]);
    if fault == ExistsRaises(j) then (s1, true)
    else if o.id in s1.existing then (s1, false)
    else
      var s2 := s1.(created := s1.created + 1, calls := s1.calls + [CreateCall(o)]);
      if fault == CreateRaises(j) then (s2, true)
      else (s2.(existing := s2.existing + {o.id}), false)
  }

  /** Handling the first `k` objects of a record, stopping at the first one that raises. */
  function RunObjects(s: ImportState, objs: seq<BatchObject>, fault: Fault, k: nat): (r: (ImportState, bool))
    requires k <= |objs|
    ensures s.uuidsP <= r.0.uuidsP && |r.0.uuidsP| <= |s.uuidsP| + k
    ensures r.0.uuidsEx == s.uuidsEx && r.0.failed == s.failed
    decreases k
  {
    if k == 0 then (s, false)
    else
      var (s', raised) := RunObjects(s, objs, fault, k - 1);
      if raised then (s', true) else ObjectStep(s', objs[k - 1], k - 1, fault)
  }

  /** Whether a record gets past the two skips: it has paragraphs and its article id has no colon. */
  predicate Imported(a: Article, uuid3: string -> string)
  {
    |a.paragraphs| > 0 && ':' !in AddArticleToBatch(a, uuid3).id
  }

  /** Handling one line of the data file. */
  function LineStep(s: ImportState, line: Line, collection: string, uuid3: string -> string): ImportState
  {
    if !Imported(line.article, uuid3) then s
    else
      var objs := ArticleParagraphObjects(line.article.title, line.article.paragraphs, collection, uuid3);
      var (s', raised) := RunObjects(s, objs, line.fault, |objs|);
      if raised then
        s'.(uuidsEx := s'.uuidsEx + [AddArticleToBatch(line.article, uuid3).id], failed := s'.failed + 1)
      else s'
  }

  /** Handling the lines of the data file in order. */
  function RunLines(s: ImportState, lines: seq<Line>, collection: string, uuid3: string -> string): ImportState
    decreases |lines|
  {
    if lines == [] then s
    else LineStep(RunLines(s, lines[..|lines| - 1], collection, uuid3), lines[|lines| - 1], collection, uuid3)
  }

  lemma RunLinesSnoc(s: ImportState, lines: seq<Line>, i: nat, collection: string, uuid3: string -> string)
    requires i < |lines|
    ensures RunLines(s, lines[..i + 1], collection, uuid3)
         == LineStep(RunLines(s, lines[..i], collection, uuid3), lines[i], collection, uuid3)
  {
    assert lines[..i + 1][..i] == lines[..i];
  }

  /** Once a record has raised, its remaining objects are not looked at. */
  lemma {:induction false} RunObjectsStopsAtRaise(s: ImportState, objs: seq<BatchObject>, fault: Fault,
                                                  j: nat, k: nat)
    requires j <= k <= |objs| && RunObjects(s, objs, fault, j).1
    ensures RunObjects(s, objs, fault, k) == RunObjects(s, objs, fault, j)
    decreases k
  {
    if k > j {
      RunObjectsStopsAtRaise(s, objs, fault, j, k - 1);
    }
  }

  /** The paragraph-object loop of the import for one record: each object's id is recorded and
      the object is created when it does not exist; the loop ends early when a call raises. */
  method ImportParagraphObjects(client: Client, paragraphObjs: seq<BatchObject>, fault: Fault,
                                uuidsP0: seq<string>, counter0: nat, ghost s: ImportState)
    returns (uuidsP: seq<string>, counter: nat, raised: bool, ghost made: seq<Call>)
    requires s.uuidsP == uuidsP0 && s.created == counter0 && s.existing == client.existing
    modifies client
    ensures RunObjects(s, paragraphObjs, fault, |paragraphObjs|)
         == (s.(uuidsP := uuidsP, created := counter, existing := client.existing, calls := s.calls + made), raised)
    ensures client.calls == old(client.calls) + made
  {
    uuidsP, counter, raised, made := uuidsP0, counter0, false, [];
    assert s.calls + made == s.calls;
    var j := 0;
    while j < |paragraphObjs| && !raised
      invariant j <= |paragraphObjs|
      invariant client.calls == old(client.calls) + made
      invariant RunObjects(s, paragraphObjs, fault, j)
             == (s.(uuidsP := uuidsP, created := counter, existing := client.existing, calls := s.calls + made), raised)
    {
      var paragraphObj := paragraphObjs[j];
      ghost var next := ObjectStep(s.(uuidsP := uuidsP, created := counter, existing := client.existing,
                                      calls := s.calls + made), paragraphObj, j, fault);
      assert RunObjects(s, paragraphObjs, fault, j + 1) == next;
      uuidsP := uuidsP + [paragraphObj.id];
      if fault == ExistsRaises(j) {
        raised := true;
      } else if !client.Exists(paragraphObj.id) {
        counter := counter + 1;
        client.Create(paragraphObj, fault == CreateRaises(j));
        assert s.calls + (made + [CreateCall(paragraphObj)]) == s.calls + made + [CreateCall(paragraphObj)];
        made := made + [CreateCall(paragraphObj)];
        if fault == CreateRaises(j) {
          raised := true;
        }
      }
      j := j + 1;
    }
    if raised {
      RunObjectsStopsAtRaise(s, paragraphObjs, fault, j, |paragraphObjs|);
    }
  }

  /** The body of the import loop for one line: a record without paragraphs or whose article id
      has a colon is skipped; otherwise its paragraph objects are imported, and when that raises
      the article id is recorded among the failed ones. */
  method ImportLine(client: Client, lines: seq<Line>, i: nat, paragraphCollectionName: string,
                    uuid3: string -> string, uuidsP0: seq<string>, uuidsEx0: seq<string>,
                    counterP0: nat, counterF0: nat, ghost s0: ImportState, ghost s: ImportState)
    returns (uuidsP: seq<string>, uuidsEx: seq<string>, counterParagraphSuccessful: nat,
             counterArticleFailed: nat, ghost made: seq<Call>)
    requires i < |lines|
    requires s == ImportState(uuidsP0, uuidsEx0, counterP0, counterF0, client.existing, s.calls)
    requires RunLines(s0, lines[..i], paragraphCollectionName, uuid3) == s
    modifies client
    ensures RunLines(s0, lines[..i + 1], paragraphCollectionName, uuid3)
         == ImportState(uuidsP, uuidsEx, counterParagraphSuccessful, counterArticleFailed,
                        client.existing, s.calls + made)
    ensures client.calls == old(client.calls) + made
  {
    uuidsP, uuidsEx, counterParagraphSuccessful, counterArticleFailed, made := uuidsP0, uuidsEx0, counterP0, counterF0, [];
    assert s.calls + made == s.calls;
    RunLinesSnoc(s0, lines, i, paragraphCollectionName, uuid3);
    var line := lines[i];
    var parsedLine := line.article;
    if |parsedLine.paragraphs| > 0 {
      var articleObj := AddArticleToBatch(parsedLine, uuid3);
      if ':' in articleObj.id {
        return;
      }
      var paragraphObjs := AddParagraphToBatch(parsedLine, paragraphCollectionName, uuid3);
      var raised;
      uuidsP, counterParagraphSuccessful, raised, made :=
        ImportParagraphObjects(client, paragraphObjs, line.fault, uuidsP, counterParagraphSuccessful, s);
      if raised {
        uuidsEx := uuidsEx + [articleObj.id];
        counterArticleFailed := counterArticleFailed + 1;
      }
    }
  }

  /** Importing the lines of a data file: for every record with paragraphs and an article id
      without a colon, every paragraph object's id is recorded and the object is created when it
      does not exist yet; a record whose processing raises is recorded among the failed articles
      and the import goes on with the next line. Finally the batch is sent and flushed. Returns the
      recorded paragraph ids, the failed article ids and the two counters that are logged. */
  method ImportDataWithoutCrefs(client: Client, lines: seq<Line>, paragraphCollectionName: string,
                                uuid3: string -> string)
    returns (uuidsP: seq<string>, uuidsEx: seq<string>, counterParagraphSuccessful: nat,
             counterArticleFailed: nat)
    modifies client
    ensures var st := RunLines(Start(old(client.existing)), lines, paragraphCollectionName, uuid3);
      && uuidsP == st.uuidsP && uuidsEx == st.uuidsEx
      && counterParagraphSuccessful == st.created && counterArticleFailed == st.failed
      && client.existing == st.existing
      && client.calls == old(client.calls) + st.calls + [CreateObjectsCall, FlushCall]
  {
    ghost var s0 := Start(client.existing);
    ghost var calls0 := client.calls;
    ghost var made: seq<Call> := [];
    uuidsP, uuidsEx, counterParagraphSuccessful, counterArticleFailed := [], [], 0, 0;
    for i := 0 to |lines|
      invariant client.calls == calls0 + made
      invariant RunLines(s0, lines[..i], paragraphCollectionName, uuid3)
             == ImportState(uuidsP, uuidsEx, counterParagraphSuccessful, counterArticleFailed,
                            client.existing, made)
    {
      ghost var before := ImportState(uuidsP, uuidsEx, counterParagraphSuccessful,
                                      counterArticleFailed, client.existing, made);
      ghost var madeNow;
      ghost var callsBefore := client.calls;
      uuidsP, uuidsEx, counterParagraphSuccessful, counterArticleFailed, madeNow :=
        ImportLine(client, lines, i, paragraphCollectionName, uuid3,
                   uuidsP, uuidsEx, counterParagraphSuccessful, counterArticleFailed, s0, before);
      assert client.calls == callsBefore + madeNow;
      assert callsBefore + madeNow == calls0 + (made + madeNow);
      made := made + madeNow;
    }
    assert lines[..|lines|] == lines;
    client.CreateObjects();
    client.Flush();
  }

  // ---------------------------------------------------------------------------------------------
  // What an import guarantees

  /** No line of the data file meets a fault. */
  predicate NoFaults(lines: seq<Line>)
  {
    forall i :: 0 <= i < |lines| ==> lines[i].fault == NoFault
  }

  function Ids(objs: seq<BatchObject>): (r: seq<string>)
    ensures |r| == |objs|
  {
    seq(|objs|, k requires 0 <= k < |objs| => objs[k].id)
  }

  /** The paragraph objects a line is imported with. */
  function LineObjects(line: Line, collection: string, uuid3: string -> string): seq<BatchObject>
  {
    if Imported(line.article, uuid3)
    then ArticleParagraphObjects(line.article.title, line.article.paragraphs, collection, uuid3)
    else []
  }

  /** The ids of all paragraph objects of the lines, in order. */
  function EmittedIds(lines: seq<Line>, collection: string, uuid3: string -> string): seq<string>
    decreases |lines|
  {
    if lines == [] then []
    else EmittedIds(lines[..|lines| - 1], collection, uuid3) + Ids(LineObjects(lines[|lines| - 1], collection, uuid3))
  }

  /** The ids of the objects the create calls were made for, in call order. */
  function CreatedIds(calls: seq<Call>): (r: seq<string>)
    ensures |r| <= |calls|
    decreases |calls|
  {
    if calls == [] then []
    else
      var last := calls[|calls| - 1];
      CreatedIds(calls[..|calls| - 1]) + (if last.CreateCall? then [last.obj.id] else [])
  }

  lemma CreatedIdsSnoc(calls: seq<Call>, o: BatchObject)
    ensures CreatedIds(calls + [CreateCall(o)]) == CreatedIds(calls) + [o.id]
  {
    assert (calls + [CreateCall(o)])[..|calls|] == calls;
  }

  /** When every call is a create call, the created ids are the calls' ids one for one. */
  lemma {:induction false} CreatedIdsOfCreates(calls: seq<Call>)
    requires forall k :: 0 <= k < |calls| ==> calls[k].CreateCall?
    ensures |CreatedIds(calls)| == |calls|
    ensures forall k :: 0 <= k < |calls| ==> CreatedIds(calls)[k] == calls[k].obj.id
    decreases |calls|
  {
    if calls != [] {
      CreatedIdsOfCreates(calls[..|calls| - 1]);
    }
  }

  /** What holds after any import from stored ids `stored`, whatever faults it met: nothing is
      removed, only recorded ids are added and each of them had a create call, the success
      counter counts the create calls (each for an id that was not stored at the start and was
      recorded), and the failure counter the failed articles. */
  ghost predicate Accounted(stored: set<string>, s: ImportState)
  {
    OnlyCreatedAdded(stored, s) && CountersMatch(s) && CallsForNewRecorded(stored, s)
  }

  /** Nothing stored is removed, and every id added was recorded and had a create call. */
  ghost predicate OnlyCreatedAdded(stored: set<string>, s: ImportState)
  {
    && stored <= s.existing <= stored + Elements(s.uuidsP)
    && s.existing - stored <= Elements(CreatedIds(s.calls))
  }

  /** The success counter counts the calls, the failure counter the failed articles. */
  ghost predicate CountersMatch(s: ImportState)
  {
    s.created == |s.calls| && s.failed == |s.uuidsEx|
  }

  /** Every call is a create call for a recorded id that was not stored at the start. */
  ghost predicate CallsForNewRecorded(stored: set<string>, s: ImportState)
  {
    forall k :: 0 <= k < |s.calls| ==>
      s.calls[k].CreateCall? && s.calls[k].obj.id !in stored && s.calls[k].obj.id in s.uuidsP
  }

  /** What holds after a fault-free import besides: exactly the recorded ids were added, every
      create call stored its object, and no id was created twice. */
  ghost predicate Saturated(stored: set<string>, s: ImportState)
  {
    AllRecordedStored(stored, s) && CreatedOnceAndStored(s)
  }

  /** Exactly the recorded ids were added. */
  ghost predicate AllRecordedStored(stored: set<string>, s: ImportState)
  {
    s.existing == stored + Elements(s.uuidsP)
  }

  /** Every create call stored its object, and no id was created twice. */
  ghost predicate CreatedOnceAndStored(s: ImportState)
  {
    Elements(CreatedIds(s.calls)) <= s.existing && !HasDuplicates(CreatedIds(s.calls))
  }

  /** The success counter against the new ids: at least their number after any import, exactly
      their number after a fault-free one. */
  lemma NewIdsCounted(stored: set<string>, s: ImportState)
    requires Accounted(stored, s)
    ensures |s.existing - stored| <= s.created
    ensures Saturated(stored, s) ==> s.created == |s.existing - stored|
  {
    var ids := CreatedIds(s.calls);
    CreatedIdsOfCreates(s.calls);
    ElementsCardinality(ids);
    SubsetCardinality(s.existing - stored, Elements(ids));
    if Saturated(stored, s) {
      forall x | x in Elements(ids)
        ensures x in s.existing - stored
      {
        var k :| 0 <= k < |ids| && ids[k] == x;
        assert s.calls[k].obj.id !in stored;
      }
      assert s.existing - stored == Elements(ids);
    }
  }

  /** Handling one object keeps the accounting. */
  lemma ObjectStepAccounted(stored: set<string>, s: ImportState, o: BatchObject, j: nat, fault: Fault)
    requires Accounted(stored, s)
    ensures Accounted(stored, ObjectStep(s, o, j, fault).0)
  {
    var s1 := s.(uuidsP := s.uuidsP + [o.id]);
    RecordKeeps(stored, s, o.id);
    if fault != ExistsRaises(j) && o.id !in s1.existing {
      CreateKeeps(stored, s1, o, fault != CreateRaises(j));
    }
  }

  /** Handling one object without raising keeps every recorded id stored. */
  lemma ObjectStepSaturated(stored: set<string>, s: ImportState, o: BatchObject, j: nat, fault: Fault)
    requires Saturated(stored, s) && !ObjectStep(s, o, j, fault).1
    ensures Saturated(stored, ObjectStep(s, o, j, fault).0)
  {
    var s1 := s.(uuidsP := s.uuidsP + [o.id]);
    if o.id in s1.existing {
      RecordSaturates(stored, s, o.id);
    } else {
      CreateSaturates(stored, s1, s.uuidsP, o);
    }
  }

  /** Recording an id keeps the accounting. */
  lemma RecordKeeps(stored: set<string>, s: ImportState, id: string)
    requires Accounted(stored, s)
    ensures Accounted(stored, s.(uuidsP := s.uuidsP + [id]))
  {
    var s1 := s.(uuidsP := s.uuidsP + [id]);
    assert Elements(s1.uuidsP) == Elements(s.uuidsP) + {id};
    forall k | 0 <= k < |s1.calls|
      ensures s1.calls[k].obj.id in s1.uuidsP
    {
      assert s.calls[k].obj.id in s.uuidsP;
    }
  }

  /** Recording an id that is already stored keeps every recorded id stored. */
  lemma RecordSaturates(stored: set<string>, s: ImportState, id: string)
    requires Saturated(stored, s) && id in s.existing
    ensures Saturated(stored, s.(uuidsP := s.uuidsP + [id]))
  {
    assert Elements(s.uuidsP + [id]) == Elements(s.uuidsP) + {id};
  }

  /** Creating a recorded object that is not stored keeps the accounting, whether or not the call
      stores it. */
  lemma CreateKeeps(stored: set<string>, s: ImportState, o: BatchObject, stores: bool)
    requires Accounted(stored, s) && o.id in s.uuidsP && o.id !in s.existing
    ensures Accounted(stored, s.(created := s.created + 1, calls := s.calls + [CreateCall(o)],
                                 existing := if stores then s.existing + {o.id} else s.existing))
  {
    var s2 := s.(created := s.created + 1, calls := s.calls + [CreateCall(o)],
                 existing := if stores then s.existing + {o.id} else s.existing);
    CreatedIdsSnoc(s.calls, o);
    assert o.id in Elements(s.uuidsP);
    assert Elements(CreatedIds(s2.calls)) == Elements(CreatedIds(s.calls)) + {o.id};
  }

  /** Creating and storing the object of the id recorded last, in an import that had stored every
      id recorded before it, leaves every recorded id stored. */
  lemma CreateSaturates(stored: set<string>, s: ImportState, init: seq<string>, o: BatchObject)
    requires s.uuidsP == init + [o.id] && o.id !in s.existing && Saturated(stored, s.(uuidsP := init))
    ensures Saturated(stored, s.(created := s.created + 1, calls := s.calls + [CreateCall(o)],
                                 existing := s.existing + {o.id}))
  {
    CreatedIdsSnoc(s.calls, o);
    assert Elements(s.uuidsP) == Elements(init) + {o.id};
    assert o.id !in CreatedIds(s.calls);
    NoDuplicatesSnoc(CreatedIds(s.calls), o.id);
  }

  lemma {:induction false} RunObjectsAccounted(stored: set<string>, s: ImportState, objs: seq<BatchObject>,
                                               fault: Fault, k: nat)
    requires k <= |objs| && Accounted(stored, s)
    ensures Accounted(stored, RunObjects(s, objs, fault, k).0)
    decreases k
  {
    if k > 0 {
      RunObjectsAccounted(stored, s, objs, fault, k - 1);
      RunObjectsStepAccounted(stored, s, objs, fault, k);
    }
  }

  /** Handling object `k - 1`, or skipping it after a raise, keeps the accounting. */
  lemma RunObjectsStepAccounted(stored: set<string>, s: ImportState, objs: seq<BatchObject>,
                                fault: Fault, k: nat)
    requires 0 < k <= |objs| && Accounted(stored, RunObjects(s, objs, fault, k - 1).0)
    ensures Accounted(stored, RunObjects(s, objs, fault, k).0)
  {
    var previous := RunObjects(s, objs, fault, k - 1);
    var now := RunObjects(s, objs, fault, k);
    if previous.1 {
      assert now == previous;
    } else {
      var step := ObjectStep(previous.0, objs[k - 1], k - 1, fault);
      assert now == step;
      ObjectStepAccounted(stored, previous.0, objs[k - 1], k - 1, fault);
    }
  }

  /** The fault is attached to one of the first `k` objects. */
  predicate FiresBefore(fault: Fault, k: nat)
  {
    !fault.NoFault? && fault.at < k
  }

  /** Objects before the one a fault is attached to are handled without raising, and their ids
      are recorded in order. */
  lemma {:induction false} RunObjectsBeforeFault(s: ImportState, objs: seq<BatchObject>, fault: Fault, k: nat)
    requires k <= |objs| && !FiresBefore(fault, k)
    ensures !RunObjects(s, objs, fault, k).1
    ensures RunObjects(s, objs, fault, k).0.uuidsP == s.uuidsP + Ids(objs[..k])
    decreases k
  {
    if k > 0 {
      RunObjectsBeforeFault(s, objs, fault, k - 1);
      IdsSnoc(objs, k);
    }
  }

  lemma {:induction false} RunObjectsSaturated(stored: set<string>, s: ImportState, objs: seq<BatchObject>,
                                               fault: Fault, k: nat)
    requires k <= |objs| && Saturated(stored, s)
    ensures !RunObjects(s, objs, fault, k).1 ==> Saturated(stored, RunObjects(s, objs, fault, k).0)
    decreases k
  {
    if k > 0 {
      var previous := RunObjects(s, objs, fault, k - 1);
      if !previous.1 {
        var step := ObjectStep(previous.0, objs[k - 1], k - 1, fault);
        assert RunObjects(s, objs, fault, k) == step;
        if !step.1 {
          RunObjectsSaturated(stored, s, objs, fault, k - 1);
          ObjectStepSaturated(stored, previous.0, objs[k - 1], k - 1, fault);
          assert Saturated(stored, step.0);
        }
      }
    }
  }

  lemma IdsSnoc(objs: seq<BatchObject>, k: nat)
    requires 0 < k <= |objs|
    ensures Ids(objs[..k]) == Ids(objs[..k - 1]) + [objs[k - 1].id]
  {
  }

  /** Handling one line keeps the accounting. */
  lemma LineStepAccounted(stored: set<string>, s: ImportState, line: Line, collection: string,
                          uuid3: string -> string)
    requires Accounted(stored, s)
    ensures Accounted(stored, LineStep(s, line, collection, uuid3))
  {
    if Imported(line.article, uuid3) {
      var objs := ArticleParagraphObjects(line.article.title, line.article.paragraphs, collection, uuid3);
      RunObjectsAccounted(stored, s, objs, line.fault, |objs|);
      var (s1, raised) := RunObjects(s, objs, line.fault, |objs|);
      if raised {
        var id := AddArticleToBatch(line.article, uuid3).id;
        assert LineStep(s, line, collection, uuid3) == s1.(uuidsEx := s1.uuidsEx + [id], failed := s1.failed + 1);
      }
    }
  }

  /** A line without a fault records exactly the ids of its objects and adds no failed article. */
  lemma LineStepFaultFree(s: ImportState, line: Line, collection: string, uuid3: string -> string)
    requires line.fault == NoFault
    ensures LineStep(s, line, collection, uuid3).uuidsP == s.uuidsP + Ids(LineObjects(line, collection, uuid3))
    ensures LineStep(s, line, collection, uuid3).uuidsEx == s.uuidsEx
  {
    if Imported(line.article, uuid3) {
      var objs := ArticleParagraphObjects(line.article.title, line.article.paragraphs, collection, uuid3);
      RunObjectsBeforeFault(s, objs, line.fault, |objs|);
      assert objs[..|objs|] == objs;
    }
  }

  /** A line without a fault keeps every recorded id stored. */
  lemma LineStepSaturated(stored: set<string>, s: ImportState, line: Line, collection: string,
                          uuid3: string -> string)
    requires Saturated(stored, s) && line.fault == NoFault
    ensures Saturated(stored, LineStep(s, line, collection, uuid3))
  {
    if Imported(line.article, uuid3) {
      var objs := ArticleParagraphObjects(line.article.title, line.article.paragraphs, collection, uuid3);
      RunObjectsBeforeFault(s, objs, line.fault, |objs|);
      RunObjectsSaturated(stored, s, objs, line.fault, |objs|);
    }
  }

  /** The last line of a run is handled after the others. */
  lemma RunLinesLast(s: ImportState, lines: seq<Line>, collection: string, uuid3: string -> string)
    requires lines != []
    ensures RunLines(s, lines, collection, uuid3)
         == LineStep(RunLines(s, lines[..|lines| - 1], collection, uuid3), lines[|lines| - 1], collection, uuid3)
  {
  }

  lemma {:induction false} RunLinesAccounted(stored: set<string>, s: ImportState, lines: seq<Line>,
                                             collection: string, uuid3: string -> string)
    requires Accounted(stored, s)
    ensures Accounted(stored, RunLines(s, lines, collection, uuid3))
    decreases |lines|
  {
    if lines != [] {
      var init := lines[..|lines| - 1];
      RunLinesLast(s, lines, collection, uuid3);
      RunLinesAccounted(stored, s, init, collection, uuid3);
      LineStepAccounted(stored, RunLines(s, init, collection, uuid3), lines[|lines| - 1], collection, uuid3);
    }
  }

  /** The lines before the last of a fault-free run are fault-free. */
  lemma NoFaultsInit(lines: seq<Line>)
    requires lines != [] && NoFaults(lines)
    ensures NoFaults(lines[..|lines| - 1]) && lines[|lines| - 1].fault == NoFault
  {
    var init := lines[..|lines| - 1];
    forall i | 0 <= i < |init|
      ensures init[i].fault == NoFault
    {
      assert init[i] == lines[i];
    }
  }

  /** A fault-free run of lines records exactly the emitted ids and adds no failed article. */
  lemma RunLinesFaultFree(s: ImportState, lines: seq<Line>, collection: string, uuid3: string -> string)
    requires NoFaults(lines)
    ensures RunLines(s, lines, collection, uuid3).uuidsP == s.uuidsP + EmittedIds(lines, collection, uuid3)
    ensures RunLines(s, lines, collection, uuid3).uuidsEx == s.uuidsEx
  {
    RunLinesRecordIds(s, lines, collection, uuid3);
    RunLinesKeepFailures(s, lines, collection, uuid3);
  }

  lemma {:induction false} RunLinesRecordIds(s: ImportState, lines: seq<Line>, collection: string,
                                             uuid3: string -> string)
    requires NoFaults(lines)
    ensures RunLines(s, lines, collection, uuid3).uuidsP == s.uuidsP + EmittedIds(lines, collection, uuid3)
    decreases |lines|
  {
    if lines != [] {
      var init, last := lines[..|lines| - 1], lines[|lines| - 1];
      var mid := RunLines(s, init, collection, uuid3);
      NoFaultsInit(lines);
      RunLinesLast(s, lines, collection, uuid3);
      RunLinesRecordIds(s, init, collection, uuid3);
      LineStepFaultFree(mid, last, collection, uuid3);
      var emitted := EmittedIds(init, collection, uuid3);
      var objIds := Ids(LineObjects(last, collection, uuid3));
      assert EmittedIds(lines, collection, uuid3) == emitted + objIds;
      ConcatAssociates(s.uuidsP, emitted, objIds);
    }
  }

  lemma {:induction false} RunLinesKeepFailures(s: ImportState, lines: seq<Line>, collection: string,
                                                uuid3: string -> string)
    requires NoFaults(lines)
    ensures RunLines(s, lines, collection, uuid3).uuidsEx == s.uuidsEx
    decreases |lines|
  {
    if lines != [] {
      var init, last := lines[..|lines| - 1], lines[|lines| - 1];
      NoFaultsInit(lines);
      RunLinesLast(s, lines, collection, uuid3);
      RunLinesKeepFailures(s, init, collection, uuid3);
      LineStepFaultFree(RunLines(s, init, collection, uuid3), last, collection, uuid3);
    }
  }

  lemma {:induction false} RunLinesSaturated(stored: set<string>, s: ImportState, lines: seq<Line>,
                                             collection: string, uuid3: string -> string)
    requires Saturated(stored, s) && NoFaults(lines)
    ensures Saturated(stored, RunLines(s, lines, collection, uuid3))
    decreases |lines|
  {
    if lines != [] {
      var init := lines[..|lines| - 1];
      NoFaultsInit(lines);
      RunLinesLast(s, lines, collection, uuid3);
      RunLinesSaturated(stored, s, init, collection, uuid3);
      LineStepSaturated(stored, RunLines(s, init, collection, uuid3), lines[|lines| - 1], collection, uuid3);
    }
  }

  /** Every import, whatever it meets: stored objects stay, only recorded ids are added, each
      create call is for a recorded id that was not stored before, the success counter is the
      number of create calls and at least the number of new ids, and the failure counter is the
      number of failed articles. Without faults besides: the recorded ids are those of all objects
      of the imported records, in order; no article failed; and the stored ids are the old ones
      plus exactly the recorded ones, so every recorded id exists afterwards. */
  lemma ImportAccounting(stored: set<string>, lines: seq<Line>, collection: string,
                         uuid3: string -> string)
    ensures var st := RunLines(Start(stored), lines, collection, uuid3);
      && Accounted(stored, st)
      && |st.existing - stored| <= st.created
      && (NoFaults(lines) ==>
            && st.uuidsP == EmittedIds(lines, collection, uuid3)
            && st.uuidsEx == [] && st.failed == 0
            && st.existing == stored + Elements(st.uuidsP)
            && st.created == |st.existing - stored|)
  {
    var s0 := Start(stored);
    assert CreatedIds(s0.calls) == [];
    assert Accounted(stored, s0) && Saturated(stored, s0);
    var st := RunLines(s0, lines, collection, uuid3);
    RunLinesAccounted(stored, s0, lines, collection, uuid3);
    NewIdsCounted(stored, st);
    if NoFaults(lines) {
      RunLinesFaultFree(s0, lines, collection, uuid3);
      RunLinesSaturated(stored, s0, lines, collection, uuid3);
      assert st.uuidsP == [] + EmittedIds(lines, collection, uuid3);
    }
  }

  /** Running a fault-free import a second time over the same data creates nothing: every id is
      found, the database and the recorded ids are the same, and no create call is made. */
  lemma ImportIsIdempotent(stored: set<string>, lines: seq<Line>, collection: string,
                           uuid3: string -> string)
    requires NoFaults(lines)
    ensures var first := RunLines(Start(stored), lines, collection, uuid3);
      var second := RunLines(Start(first.existing), lines, collection, uuid3);
      && second.existing == first.existing
      && second.uuidsP == first.uuidsP
      && second.created == 0 && second.calls == []
  {
    var first := RunLines(Start(stored), lines, collection, uuid3);
    var second := RunLines(Start(first.existing), lines, collection, uuid3);
    ImportAccounting(stored, lines, collection, uuid3);
    ImportAccounting(first.existing, lines, collection, uuid3);
    assert second.existing - first.existing == {};
  }

  /** The data file is handled line by line: importing `a + b` continues from the state after `a`. */
  lemma {:induction false} RunLinesConcat(s: ImportState, a: seq<Line>, b: seq<Line>, collection: string,
                                          uuid3: string -> string)
    ensures RunLines(s, a + b, collection, uuid3)
         == RunLines(RunLines(s, a, collection, uuid3), b, collection, uuid3)
    decreases |b|
  {
    if b == [] {
      assert a + b == a;
    } else {
      var b' := b[..|b| - 1];
      assert (a + b)[..|a + b| - 1] == a + b';
      assert (a + b)[|a + b| - 1] == b[|b| - 1];
      RunLinesConcat(s, a, b', collection, uuid3);
    }
  }

  /** A failure does not spill over: after any lines `a`, whatever they met, fault-free lines `b`
      record exactly their own objects' ids and add no failed article. */
  lemma FailuresStayWithTheirLine(stored: set<string>, a: seq<Line>, b: seq<Line>, collection: string,
                                  uuid3: string -> string)
    requires NoFaults(b)
    ensures var sa := RunLines(Start(stored), a, collection, uuid3);
      var sab := RunLines(Start(stored), a + b, collection, uuid3);
      && sab.uuidsP == sa.uuidsP + EmittedIds(b, collection, uuid3)
      && sab.uuidsEx == sa.uuidsEx && sab.failed == sa.failed
  {
    var sa := RunLines(Start(stored), a, collection, uuid3);
    RunLinesConcat(Start(stored), a, b, collection, uuid3);
    RunLinesFaultFree(sa, b, collection, uuid3);
    ImportAccounting(stored, a, collection, uuid3);
    RunLinesAccounted(stored, sa, b, collection, uuid3);
  }

  /** A record whose existence check raises at object `j` has the ids of its objects up to and
      including `j` recorded, none after, and its article id added to the failed ones. */
  lemma {:induction false} ExistsFaultStopsTheRecord(s: ImportState, line: Line, collection: string,
                                                     uuid3: string -> string, j: nat)
    requires Imported(line.article, uuid3) && line.fault == ExistsRaises(j)
    requires j < |LineObjects(line, collection, uuid3)|
    ensures var objs := LineObjects(line, collection, uuid3);
      var s' := LineStep(s, line, collection, uuid3);
      && s'.uuidsP == s.uuidsP + Ids(objs[..j + 1])
      && s'.uuidsEx == s.uuidsEx + [AddArticleToBatch(line.article, uuid3).id]
      && s'.failed == s.failed + 1
  {
    var objs := LineObjects(line, collection, uuid3);
    RunObjectsBeforeFault(s, objs, line.fault, j);
    var sj := RunObjects(s, objs, line.fault, j).0;
    IdsSnoc(objs, j + 1);
    assert RunObjects(s, objs, line.fault, j + 1) == (sj.(uuidsP := sj.uuidsP + [objs[j].id]), true);
    RaiseEndsTheLine(s, line, collection, uuid3, j);
  }

  /** A fault in the create call of object `j` also stops the record there: the ids up to `j` are
      listed, the success counter has already counted the call, the call is made but stores
      nothing, and the article is recorded as failed once. */
  lemma {:induction false} CreateFaultStopsTheRecord(s: ImportState, line: Line, collection: string,
                                                     uuid3: string -> string, j: nat)
    requires Imported(line.article, uuid3) && line.fault == CreateRaises(j)
    requires j < |LineObjects(line, collection, uuid3)|
    requires var objs := LineObjects(line, collection, uuid3);
      objs[j].id !in RunObjects(s, objs, line.fault, j).0.existing
    ensures var objs := LineObjects(line, collection, uuid3);
      var sj := RunObjects(s, objs, line.fault, j).0;
      var s' := LineStep(s, line, collection, uuid3);
      && s'.uuidsP == s.uuidsP + Ids(objs[..j + 1])
      && s'.uuidsEx == s.uuidsEx + [AddArticleToBatch(line.article, uuid3).id]
      && s'.failed == s.failed + 1
      && s'.created == sj.created + 1
      && s'.calls == sj.calls + [CreateCall(objs[j])]
      && s'.existing == sj.existing
  {
    var objs := LineObjects(line, collection, uuid3);
    RunObjectsBeforeFault(s, objs, line.fault, j);
    var sj := RunObjects(s, objs, line.fault, j).0;
    IdsSnoc(objs, j + 1);
    assert RunObjects(s, objs, line.fault, j + 1)
        == (sj.(uuidsP := sj.uuidsP + [objs[j].id], created := sj.created + 1,
                calls := sj.calls + [CreateCall(objs[j])]), true);
    RaiseEndsTheLine(s, line, collection, uuid3, j);
  }

  /** When object `j` raises, the line ends with the state after it, plus the failed article. */
  lemma RaiseEndsTheLine(s: ImportState, line: Line, collection: string, uuid3: string -> string, j: nat)
    requires Imported(line.article, uuid3)
    requires j < |LineObjects(line, collection, uuid3)|
    requires RunObjects(s, LineObjects(line, collection, uuid3), line.fault, j + 1).1
    ensures var stop := RunObjects(s, LineObjects(line, collection, uuid3), line.fault, j + 1).0;
      LineStep(s, line, collection, uuid3)
      == stop.(uuidsEx := stop.uuidsEx + [AddArticleToBatch(line.article, uuid3).id],
               failed := stop.failed + 1)
  {
    var objs := LineObjects(line, collection, uuid3);
    RunObjectsStopsAtRaise(s, objs, line.fault, j + 1, |objs|);
  }

  /** A name-based UUID as Python prints it: 32 lower-case hexadecimal digits in groups of
      8-4-4-4-12 separated by dashes. */
  predicate IsUuidText(s: string)
  {
    |s| == 36
    && forall i :: 0 <= i < 36 ==>
         if i == 8 || i == 13 || i == 18 || i == 23 then s[i] == '-'
         else '0' <= s[i] <= '9' || 'a' <= s[i] <= 'f'
  }

  /** The category skip tests the article's id, not its title. An id printed as a UUID never holds
      a colon, so every record with paragraphs is imported, categories included. */
  lemma CategorySkipNeverFires(a: Article, uuid3: string -> string)
    requires IsUuidText(uuid3(ArticleKey(a.title)))
    ensures Imported(a, uuid3) <==> |a.paragraphs| > 0
  {
  }

  // ---------------------------------------------------------------------------------------------
  // delete_uuids, checkUUIDExists, checkIfObjectsExist, checkForDuplicates

  /** Deleting by id: one delete call per id, each with the whole list as its filter; afterwards
      none of the ids is stored and every other object is kept. */
  method DeleteUuids(client: Client, uuids: seq<string>, collectionName: string)
    modifies client
    ensures client.calls == old(client.calls) + seq(|uuids|, _ => DeleteObjectsCall(collectionName, uuids))
    ensures client.existing == if uuids == [] then old(client.existing) else old(client.existing) - Elements(uuids)
  {
    ghost var e0 := client.existing;
    ghost var calls0 := client.calls;
    for i := 0 to |uuids|
      invariant client.calls == calls0 + seq(i, _ => DeleteObjectsCall(collectionName, uuids))
      invariant client.existing == if i == 0 then e0 else e0 - Elements(uuids)
    {
      client.DeleteObjects(collectionName, uuids);
      assert seq(i + 1, _ => DeleteObjectsCall(collectionName, uuids))
          == seq(i, _ => DeleteObjectsCall(collectionName, uuids)) + [DeleteObjectsCall(collectionName, uuids)];
    }
  }

  /** `checkUUIDExists`: passes when the object is stored and fails otherwise. `Fail(id)` stands
      for the error log line, which names the id, together with the bare `raise` that follows it;
      with no exception being handled that raise is a `RuntimeError` that does not carry the id. */
  function CheckUUIDExists(client: Client, id: string): (r: Outcome<string>)
    reads client
    ensures r == Pass <==> id in client.existing
    ensures r.Fail? ==> r.error == id
  {
    if client.Exists(id) then Pass else Fail(id)
  }

  /** `checkIfObjectsExist`: passes when every id is stored, otherwise fails at the first id, in
      iteration order, that is not. */
  method CheckIfObjectsExist(client: Client, uuids: seq<string>) returns (r: Outcome<string>)
    ensures r == Pass <==> forall i :: 0 <= i < |uuids| ==> uuids[i] in client.existing
    ensures r.Fail? ==> exists i :: 0 <= i < |uuids| && uuids[i] == r.error
                          && uuids[i] !in client.existing
                          && forall k :: 0 <= k < i ==> uuids[k] in client.existing
  {
    for i := 0 to |uuids|
      invariant forall k :: 0 <= k < i ==> uuids[k] in client.existing
    {
      var check := CheckUUIDExists(client, uuids[i]);
      if check.Fail? {
        return check;
      }
    }
    return Pass;
  }

  /** After a fault-free import every recorded id is found, in whatever order the check visits them. */
  lemma ImportedObjectsExist(stored: set<string>, lines: seq<Line>, collection: string,
                             uuid3: string -> string, order: seq<string>)
    requires NoFaults(lines)
    requires Elements(order) == Elements(RunLines(Start(stored), lines, collection, uuid3).uuidsP)
    ensures forall i :: 0 <= i < |order| ==> order[i] in RunLines(Start(stored), lines, collection, uuid3).existing
  {
    ImportAccounting(stored, lines, collection, uuid3);
    var st := RunLines(Start(stored), lines, collection, uuid3);
    forall i | 0 <= i < |order|
      ensures order[i] in st.existing
    {
      assert order[i] in Elements(order);
    }
  }

  /** `checkForDuplicates`: the set of the ids, and whether the duplicates message is logged. */
  function CheckForDuplicates(uuids: seq<string>): (r: (set<string>, bool))
    ensures forall x :: x in r.0 <==> x in uuids
    ensures r.1 <==> HasDuplicates(uuids)
  {
    ElementsCardinality(uuids);
    (Elements(uuids), |Elements(uuids)| != |uuids|)
  }

  /** Six ids with repeats: the duplicates message is logged and three ids remain. */
  lemma DuplicatesAreReported()
    ensures CheckForDuplicates(["a", "a", "b", "c", "c", "c"]).1
    ensures |CheckForDuplicates(["a", "a", "b", "c", "c", "c"]).0| == 3
  {
    var s := ["a", "a", "b", "c", "c", "c"];
    assert s[0] == s[1];
    assert Elements(s) == {"a", "b", "c"};
  }
}
