/**
 * The ingestion script ingestion.py: every crawled page with content becomes
 * a document, the split chunks get content-addressed IDs, and the IDs, texts
 * and metadata go to the vector store as three index-aligned lists, one batch
 * per base URL. The crawler, the text splitter, MD5 and UUIDv5 are outside
 * the model and enter as parameters.
 */
module Ingestion {
  import opened Wrappers

  /** A metadata dictionary with string keys and values. */
  type Metadata = map<string, string>

  /** A crawled page; either format may be missing (`None`). */
  datatype Page = Page(markdown: Option<string>, html: Option<string>, metadata: Metadata)

  /** What `crawl_url` returns; its `data` may be `None`. */
  datatype CrawlResult = CrawlResult(data: Option<seq<Page>>)

  /** A LangChain `Document`: `page_content` and `metadata`. */
  datatype Document = Document(pageContent: string, metadata: Metadata)

  const SourceKey: string := "source"
  const SourceUrlKey: string := "sourceURL"

  /** Python truthiness of an optional string: present and non-empty. */
  predicate Truthy(s: Option<string>)
  {
    s.Some? && s.value != ""
  }

  /** `result.data or []`. */
  function CrawledPages(data: Option<seq<Page>>): (pages: seq<Page>)
    ensures data.None? ==> pages == []
    ensures data.Some? ==> pages == data.value
  {
    match data
    case None => []
    case Some(ps) => ps
  }

  /** `page.markdown or page.html or ""`: the first truthy format, else the empty string. */
  function Content(page: Page): (c: string)
    ensures Truthy(page.markdown) ==> c == page.markdown.value
    ensures !Truthy(page.markdown) && Truthy(page.html) ==> c == page.html.value
    ensures !Truthy(page.markdown) && !Truthy(page.html) ==> c == ""
  {
    if Truthy(page.markdown) then page.markdown.value
    else if Truthy(page.html) then page.html.value
    else ""
  }

  /** The comprehension's filter `if (page.markdown or page.html)`. */
  predicate Kept(page: Page)
  {
    Truthy(page.markdown) || Truthy(page.html)
  }

  /** A page is kept exactly when the content it would get is not empty. */
  lemma KeptIffContent(page: Page)
    ensures Kept(page) <==> Content(page) != ""
  {
  }

  /** `Document(page_content=page.markdown or page.html or "", metadata={"source": ...})`. */
  function ToDocument(page: Page, url: string): (d: Document)
    ensures d.pageContent == Content(page)
    ensures Kept(page) ==> d.pageContent != ""
    ensures d.metadata.Keys == {SourceKey}
    ensures SourceUrlKey in page.metadata ==> d.metadata[SourceKey] == page.metadata[SourceUrlKey]
    ensures SourceUrlKey !in page.metadata ==> d.metadata[SourceKey] == url
  {
    var source := if SourceUrlKey in page.metadata then page.metadata[SourceUrlKey] else url;
    Document(Content(page), map[SourceKey := source])
  }

  /** The `docs` comprehension over the crawled pages of base URL `url`. */
  function BuildDocuments(pages: seq<Page>, url: string): (docs: seq<Document>)
    ensures |docs| <= |pages|
    ensures forall j :: 0 <= j < |docs| ==> docs[j].pageContent != "" && SourceKey in docs[j].metadata
    decreases |pages|
  {
    if pages == [] then []
    else
      var last := pages[|pages| - 1];
      BuildDocuments(pages[..|pages| - 1], url) + (if Kept(last) then [ToDocument(last, url)] else [])
  }

  /** The positions of the kept pages, in ascending order. */
  function KeptIndices(pages: seq<Page>): (k: seq<nat>)
    ensures forall j :: 0 <= j < |k| ==> k[j] < |pages| && Kept(pages[k[j]])
    ensures forall j1, j2 :: 0 <= j1 < j2 < |k| ==> k[j1] < k[j2]
    ensures forall i :: 0 <= i < |pages| && Kept(pages[i]) ==> i in k
    decreases |pages|
  {
    if pages == [] then []
    else
      var n := |pages| - 1;
      var prefix := pages[..n];
      var rest := KeptIndices(prefix);
      assert forall j :: 0 <= j < |rest| ==> pages[rest[j]] == prefix[rest[j]];
      assert forall i :: 0 <= i < n ==> pages[i] == prefix[i];
      rest + (if Kept(pages[n]) then [n] else [])
  }

  /**
   * The documents are exactly the kept pages converted, in page order: an
   * order-preserving subsequence with the pages lacking both formats dropped.
   */
  lemma {:induction false} DocumentsAreKeptPages(pages: seq<Page>, url: string)
    ensures var docs := BuildDocuments(pages, url); var k := KeptIndices(pages);
      |docs| == |k| && forall j :: 0 <= j < |k| ==> docs[j] == ToDocument(pages[k[j]], url)
    decreases |pages|
  {
    if pages != [] {
      var n := |pages| - 1;
      var prefix := pages[..n];
      DocumentsAreKeptPages(prefix, url);
      var docs := BuildDocuments(prefix, url);
      var k := KeptIndices(prefix);
      if Kept(pages[n]) {
        assert BuildDocuments(pages, url) == docs + [ToDocument(pages[n], url)];
        assert KeptIndices(pages) == k + [n];
      } else {
        assert BuildDocuments(pages, url) == docs;
        assert KeptIndices(pages) == k;
      }
      forall j | 0 <= j < |k| ensures pages[k[j]] == prefix[k[j]] {
      }
    }
  }

  /** Crawl data of `None` gives no documents. */
  lemma NoDataNoDocuments(url: string)
    ensures BuildDocuments(CrawledPages(None), url) == []
  {
  }

  /** The MD5 hex digest and UUIDv5-in-the-URL-namespace functions, as strings. */
  datatype Hashes = Hashes(md5Hex: string -> string, uuid5Url: string -> string)

  const DigestLength: nat := 32

  /** What `hexdigest()` of MD5 returns: 32 lower-case hexadecimal digits. */
  predicate IsHexDigest(h: string)
  {
    |h| == DigestLength && forall i :: 0 <= i < |h| ==> h[i] in "0123456789abcdef"
  }

  /** The only property of the hash functions the model relies on. */
  ghost predicate WellFormed(h: Hashes)
  {
    forall s :: IsHexDigest(h.md5Hex(s))
  }

  /** The UUIDv5 name `f"{source}#{content_hash}"`: the source, one `#`, then the hash. */
  function NameString(source: string, contentHash: string): (name: string)
    ensures |name| == |source| + 1 + |contentHash|
    ensures name[..|source|] == source && name[|source|] == '#'
    ensures name[|source| + 1..] == contentHash
  {
    var name := source + "#" + contentHash;
    assert name[|source| + 1..] == contentHash;
    name
  }

  /** Reads a name back from its end: the last 32 characters are the hash. */
  function SplitName(name: string): (r: Option<(string, string)>)
    ensures r.Some? ==> |r.value.1| == DigestLength && NameString(r.value.0, r.value.1) == name
  {
    if |name| >= DigestLength + 1 && name[|name| - DigestLength - 1] == '#' then
      var source := name[..|name| - DigestLength - 1];
      var hash := name[|name| - DigestLength..];
      assert name == source + "#" + hash;
      Some((source, hash))
    else None
  }

  /** A name with a 32-character hash gives back its source and hash. */
  lemma NameRoundTrip(source: string, contentHash: string)
    requires |contentHash| == DigestLength
    ensures SplitName(NameString(source, contentHash)) == Some((source, contentHash))
  {
    var name := NameString(source, contentHash);
    assert name[..|name| - DigestLength - 1] == source;
    assert name[|name| - DigestLength..] == contentHash;
  }

  /** With a fixed-length hash the name determines the pair, even when the source holds `#`. */
  lemma NameInjective(s1: string, h1: string, s2: string, h2: string)
    requires |h1| == DigestLength && |h2| == DigestLength
    requires NameString(s1, h1) == NameString(s2, h2)
    ensures s1 == s2 && h1 == h2
  {
    NameRoundTrip(s1, h1);
    NameRoundTrip(s2, h2);
  }

  /** Without the fixed length the pair would be ambiguous: the `#` alone does not separate. */
  lemma NameAmbiguousWithoutFixedLength()
    ensures NameString("a#b", "c") == NameString("a", "b#c")
  {
  }

  /** The name `generate_id` hashes for a chunk. */
  function IdName(h: Hashes, doc: Document): string
    requires SourceKey in doc.metadata
  {
    NameString(doc.metadata[SourceKey], h.md5Hex(doc.pageContent))
  }

  /** The (source, content) pair the ID of a chunk is a function of. */
  function ChunkKey(doc: Document): (string, string)
    requires SourceKey in doc.metadata
  {
    (doc.metadata[SourceKey], doc.pageContent)
  }

  /** The ID of a chunk key. */
  function KeyId(h: Hashes, key: (string, string)): string
  {
    h.uuid5Url(NameString(key.0, h.md5Hex(key.1)))
  }

  /** `generate_id(doc)`: `str(uuid5(NAMESPACE_URL, f"{source}#{md5hex(content)}"))`. */
  function GenerateId(h: Hashes, doc: Document): (id: string)
    requires SourceKey in doc.metadata
    ensures id == KeyId(h, ChunkKey(doc))
  {
    h.uuid5Url(IdName(h, doc))
  }

  /** The name of a chunk's ID recovers exactly its source and its content hash. */
  lemma IdNameDeterminesChunkKey(h: Hashes, doc: Document)
    requires WellFormed(h)
    requires SourceKey in doc.metadata
    ensures SplitName(IdName(h, doc)) == Some((doc.metadata[SourceKey], h.md5Hex(doc.pageContent)))
  {
    assert IsHexDigest(h.md5Hex(doc.pageContent));
    NameRoundTrip(doc.metadata[SourceKey], h.md5Hex(doc.pageContent));
  }

  /** Two chunk names are equal exactly when source and content hash are. */
  lemma IdNamesEqualIff(h: Hashes, d1: Document, d2: Document)
    requires WellFormed(h)
    requires SourceKey in d1.metadata && SourceKey in d2.metadata
    ensures IdName(h, d1) == IdName(h, d2)
        <==> d1.metadata[SourceKey] == d2.metadata[SourceKey] && h.md5Hex(d1.pageContent) == h.md5Hex(d2.pageContent)
  {
    IdNameDeterminesChunkKey(h, d1);
    IdNameDeterminesChunkKey(h, d2);
  }

  /** The three lists handed to `PineconeVectorStore.from_texts`. */
  datatype Upload = Upload(ids: seq<string>, texts: seq<string>, metadatas: seq<Metadata>)

  /** Every chunk carries `metadata["source"]`; otherwise `generate_id` raises `KeyError`. */
  predicate AllSourced(splitDocs: seq<Document>)
  {
    forall i :: 0 <= i < |splitDocs| ==> SourceKey in splitDocs[i].metadata
  }

  /**
   * The `ids`, `texts` and `metadatas` comprehensions; `None` stands for the
   * `KeyError` of a chunk without a source.
   */
  function BuildUpload(h: Hashes, splitDocs: seq<Document>): (r: Option<Upload>)
    ensures r.Some? <==> AllSourced(splitDocs)
    ensures r.Some? ==> |r.value.ids| == |splitDocs| && |r.value.texts| == |splitDocs| && |r.value.metadatas| == |splitDocs|
    ensures r.Some? ==> forall i :: 0 <= i < |splitDocs| ==>
      && r.value.ids[i] == GenerateId(h, splitDocs[i])
      && r.value.texts[i] == splitDocs[i].pageContent
      && r.value.metadatas[i] == splitDocs[i].metadata
    ensures r.Some? ==> forall i, j :: 0 <= i < |splitDocs| && 0 <= j < |splitDocs| ==>
      ChunkKey(splitDocs[i]) == ChunkKey(splitDocs[j]) ==> r.value.ids[i] == r.value.ids[j]
  {
    if AllSourced(splitDocs) then
      Some(Upload(
        seq(|splitDocs|, i requires 0 <= i < |splitDocs| && AllSourced(splitDocs) => GenerateId(h, splitDocs[i])),
        seq(|splitDocs|, i requires 0 <= i < |splitDocs| => splitDocs[i].pageContent),
        seq(|splitDocs|, i requires 0 <= i < |splitDocs| => splitDocs[i].metadata)))
    else None
  }

  /** The distinct (source, content) pairs of a batch's chunks. */
  function ChunkKeys(splitDocs: seq<Document>): set<(string, string)>
    requires AllSourced(splitDocs)
  {
    set i | 0 <= i < |splitDocs| :: ChunkKey(splitDocs[i])
  }

  /** The IDs of a set of chunk keys. */
  function KeyIds(h: Hashes, keys: set<(string, string)>): set<string>
  {
    set k | k in keys :: KeyId(h, k)
  }

  /** The distinct IDs of an upload. */
  function DistinctIds(u: Upload): set<string>
  {
    set i | 0 <= i < |u.ids| :: u.ids[i]
  }

  /** An image of a finite set is no larger than the set. */
  lemma {:induction false} ImageNoLarger(h: Hashes, keys: set<(string, string)>)
    ensures |KeyIds(h, keys)| <= |keys|
    decreases |keys|
  {
    if keys != {} {
      var x :| x in keys;
      var rest := keys - {x};
      ImageNoLarger(h, rest);
      assert KeyIds(h, keys) == KeyIds(h, rest) + {KeyId(h, x)};
    }
  }

  /** The IDs of a batch are the IDs of its chunks' keys. */
  lemma UploadIdsAreKeyIds(h: Hashes, splitDocs: seq<Document>)
    requires AllSourced(splitDocs)
    ensures DistinctIds(BuildUpload(h, splitDocs).value) == KeyIds(h, ChunkKeys(splitDocs))
  {
    var u := BuildUpload(h, splitDocs).value;
    var keys := ChunkKeys(splitDocs);
    forall id | id in DistinctIds(u) ensures id in KeyIds(h, keys) {
      var i :| 0 <= i < |u.ids| && u.ids[i] == id;
      assert ChunkKey(splitDocs[i]) in keys;
    }
    forall id | id in KeyIds(h, keys) ensures id in DistinctIds(u) {
      var k :| k in keys && KeyId(h, k) == id;
      var i :| 0 <= i < |splitDocs| && ChunkKey(splitDocs[i]) == k;
      assert u.ids[i] == id;
    }
  }

  /**
   * Upserting a batch writes at most one record per distinct (source,
   * content) pair: repeated chunks, and chunks re-ingested unchanged,
   * share their ID.
   */
  lemma DistinctIdsBound(h: Hashes, splitDocs: seq<Document>)
    requires AllSourced(splitDocs)
    ensures |DistinctIds(BuildUpload(h, splitDocs).value)| <= |ChunkKeys(splitDocs)|
  {
    UploadIdsAreKeyIds(h, splitDocs);
    ImageNoLarger(h, ChunkKeys(splitDocs));
  }

  /** `langchain_documents_base_urls`. */
  const BaseUrls: seq<string> := [
    "https://python.langchain.com/docs/introduction/",
    "https://python.langchain.com/docs/integrations/chat/",
    "https://python.langchain.com/docs/integrations/llms/",
    "https://python.langchain.com/docs/integrations/text_embedding/",
    "https://python.langchain.com/docs/integrations/document_loaders/",
    "https://python.langchain.com/docs/integrations/document_transformers/",
    "https://python.langchain.com/docs/integrations/vectorstores/",
    "https://python.langchain.com/docs/integrations/retrievers/",
    "https://python.langchain.com/docs/integrations/tools/",
    "https://python.langchain.com/docs/integrations/stores/",
    "https://python.langchain.com/docs/integrations/llm_caching/",
    "https://python.langchain.com/docs/integrations/graphs/",
    "https://python.langchain.com/docs/integrations/memory/",
    "https://python.langchain.com/docs/integrations/callbacks/",
    "https://python.langchain.com/docs/integrations/chat_loaders/",
    "https://python.langchain.com/docs/concepts/",
    "https://python.langchain.com/docs/concepts/chat_models/"
  ]

  const CrawlLimit: nat := 10
  const ChunkSize: nat := 800
  const ChunkOverlap: nat := 100
  const IndexName: string := "langchain-demo"

  /**
   * `FirecrawlApp().crawl_url(url=..., limit=...)`, asking for markdown and
   * html; `None` when the call raises.
   */
  type Crawler = (string, nat) -> Option<CrawlResult>

  /** `RecursiveCharacterTextSplitter(chunk_size, chunk_overlap).split_documents(docs)`. */
  type Splitter = (seq<Document>, nat, nat) -> seq<Document>

  /**
   * `PineconeVectorStore.from_texts(..., index_name=...)`, which embeds the
   * texts and upserts them; `false` when it raises.
   */
  type Store = (Upload, string) -> bool

  /** Why a batch ends the run: the exception that escapes the loop body. */
  datatype Failure = CrawlRaised | MissingSource | UploadRaised

  /** What the loop body does for one base URL. */
  datatype BatchOutcome = Uploaded(upload: Upload) | Failed(failure: Failure)

  /** The chunks of one crawl: its pages as documents, split. */
  function ChunksOf(split: Splitter, url: string, result: CrawlResult): seq<Document>
  {
    split(BuildDocuments(CrawledPages(result.data), url), ChunkSize, ChunkOverlap)
  }

  /**
   * The loop body for base URL `url`: crawl, build and split the documents,
   * compute the three lists, hand them to the store. The first step that
   * raises decides the failure; the later steps do not run.
   */
  function BatchFor(h: Hashes, crawl: Crawler, split: Splitter, store: Store, url: string): (r: BatchOutcome)
    ensures r == Failed(CrawlRaised) <==> crawl(url, CrawlLimit).None?
    ensures r == Failed(MissingSource)
        <==> crawl(url, CrawlLimit).Some? && !AllSourced(ChunksOf(split, url, crawl(url, CrawlLimit).value))
    ensures r.Uploaded? ==> crawl(url, CrawlLimit).Some?
    ensures r.Uploaded? ==> BuildUpload(h, ChunksOf(split, url, crawl(url, CrawlLimit).value)) == Some(r.upload)
    ensures r.Uploaded? ==> store(r.upload, IndexName)
    ensures r == Failed(UploadRaised)
        <==> (&& crawl(url, CrawlLimit).Some?
              && BuildUpload(h, ChunksOf(split, url, crawl(url, CrawlLimit).value)).Some?
              && !store(BuildUpload(h, ChunksOf(split, url, crawl(url, CrawlLimit).value)).value, IndexName))
  {
    match crawl(url, CrawlLimit)
    case None => Failed(CrawlRaised)
    case Some(result) =>
      match BuildUpload(h, ChunksOf(split, url, result))
      case None => Failed(MissingSource)
      case Some(upload) => if store(upload, IndexName) then Uploaded(upload) else Failed(UploadRaised)
  }

  /**
   * `ingest_docs2()`: one crawl-split-upload batch per base URL, in order.
   * There is no exception handling, so the first batch that raises ends the
   * whole run; the batches before it are uploaded, and `failure` says what
   * raised.
   */
  method IngestDocs2(h: Hashes, crawl: Crawler, split: Splitter, store: Store)
    returns (uploads: seq<Upload>, failure: Option<Failure>)
    ensures |uploads| <= |BaseUrls|
    ensures forall i :: 0 <= i < |uploads| ==> BatchFor(h, crawl, split, store, BaseUrls[i]) == Uploaded(uploads[i])
    ensures failure.None? <==> |uploads| == |BaseUrls|
    ensures failure.Some? ==> BatchFor(h, crawl, split, store, BaseUrls[|uploads|]) == Failed(failure.value)
  {
    uploads := [];
    var i := 0;
    while i < |BaseUrls|
      invariant 0 <= i <= |BaseUrls| && |uploads| == i
      invariant forall j :: 0 <= j < i ==> BatchFor(h, crawl, split, store, BaseUrls[j]) == Uploaded(uploads[j])
    {
      var url := BaseUrls[i];
      var result := crawl(url, CrawlLimit);
      if result.None? {
        return uploads, Some(CrawlRaised);
      }
      var pages := CrawledPages(result.value.data);
      var docs := BuildDocuments(pages, url);
      var splitDocs := split(docs, ChunkSize, ChunkOverlap);
      var upload := BuildUpload(h, splitDocs);
      if upload.None? {
        return uploads, Some(MissingSource);
      }
      if !store(upload.value, IndexName) {
        return uploads, Some(UploadRaised);
      }
      uploads := uploads + [upload.value];
      i := i + 1;
    }
    failure := None;
  }
}
