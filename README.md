# LangChain documentation chatbot: a Dafny model of its sequential core

The repository is a retrieval-augmented chatbot over the LangChain
documentation: two Streamlit scripts (app.py and main.py) collect questions,
hand them with the chat history to a retrieval pipeline, and show the answer
with a numbered list of the pages it came from; an ingestion script
(ingestion.py) crawls the documentation, splits it into chunks and uploads
them to a vector index under content-addressed IDs.

This project models the parts of that code that are plain sequential logic:

- `Citations` (citations.dfy): `create_sources_string`, present verbatim in
  app.py and in main.py and defined here once. Python's `sorted` on strings is
  `SortedList`, built on code-point lexicographic order (`Below`); `str.join`
  is `Join`; `f"{i+1}"` is `NatToString`. `Split` stands for `str.split` and
  is used only to read a listing back in the lemmas.
- `Timestamps` (timestamps.dfy): `format_ts`, also identical in both scripts.
- `Turns` (turns.dfy): the set of distinct sources of a pipeline answer and the
  `formatted_response` string, built the same way in both scripts.
- `ChatSession` (chat_session.dfy): the four session lists as a class
  `Session`. It has a ghost turn count and a lockstep invariant `Valid`. Its
  methods record a turn, reset, and run the transcript-export loop.
- `Pages` (pages.dfy): the two scripts' handlers over the same `Session`
  class; each script keeps its own `st.session_state`. app.py has submit,
  reset and download; main.py has only submit.
- `Ingestion` (ingestion.dfy): pages to documents, `generate_id`, the
  index-aligned `ids`/`texts`/`metadatas` lists, and the loop over the
  seventeen base URLs.
- `Wrappers` (wrappers.dfy): `Option`, for Python's `None`.

The pipeline `run_llm`, the clock, `strftime`, the crawler, the text splitter,
the vector store, MD5 and UUIDv5 are not modelled. They enter as parameters:
an `Option<LlmResponse>` value (`None` when `run_llm` raises), `Stamp`
values, a `strftime` function, a `Crawler` returning `None` when `crawl_url`
raises, a `Splitter`, a `Store` returning `false` when `from_texts` raises,
and a `Hashes` pair of functions. The model assumes only one thing of
`Hashes` (`WellFormed`): the MD5 hex digest is 32 lowercase hex digits.

Two facts of the code shape the ingestion model:

- ingestion.py has no exception handling (ingestion.py:69-116), so an
  exception in one batch ends the run after the earlier batches were uploaded.
- The comment at ingestion.py:98 says "source and chunk index", but line 100
  hashes the chunk's content: the ID is derived from the source and the MD5 of
  the content (ingestion.py:100-101).

## Model

| member | source | states |
|---|---|---|
| `Citations.Below` | app.py:30 | Python's `<` on strings: a proper prefix is smaller, otherwise the first differing code point decides |
| `Citations.BelowIrreflexive` | app.py:30 | no string is below itself |
| `Citations.BelowTransitive` | app.py:30 | the order is transitive |
| `Citations.BelowTotal` | app.py:30 | any two different strings are ordered one way or the other |
| `Citations.SortedList` | app.py:30 | `sorted(source_urls)`: strictly ascending in code-point order, holds exactly the URLs of the set, one entry per URL |
| `Citations.SortedListUnique` | app.py:30 | any strictly ascending listing of a set equals `SortedList` of it, so the order is fully determined |
| `Citations.NatToString` | app.py:31 | `f"{i+1}"` is a non-empty digit string whose decimal value is the number, with no leading zero |
| `Citations.NumberedLine` | app.py:31 | the line `f"{i+1}. {src}"` reads back as the number `i + 1` and the URL `src` |
| `Citations.NumberedLines` | app.py:31 | the `enumerate` comprehension: one line per URL, the i-th line numbering the i-th URL |
| `Citations.Join` | app.py:31 | `str.join`: no parts give `""`, one part gives that part, otherwise the result starts with the first part |
| `Citations.SplitJoin` | app.py:31 | splitting `"\n".join(lines)` on newlines gives the lines back when none contains a newline |
| `Citations.JoinEndsWithLast` | app.py:31 | a join ends with its last part: no separator is added at the end |
| `Citations.CreateSourcesString` | app.py:27-31 | the result is `""` exactly when the set is empty; otherwise it starts with the `sources:\n` header |
| `Citations.ListingLines` | app.py:30-31 | split on newlines, a non-empty listing is `sources:` followed by line `"{i+1}. {url}"` for the i-th URL in ascending order |
| `Citations.ListingLineCount` | app.py:31 | a non-empty listing has one line per distinct URL besides the header |
| `Citations.NoTrailingNewline` | app.py:31 | a non-empty listing does not end with a newline |
| `Citations.TwoSources` | main.py:31-35 | main.py's copy (the same function) lists two URLs smaller first: `{v, u}` with `u < v` gives `"sources:\n1. " + u + "\n2. " + v` |
| `Timestamps.FormatTs` | app.py:33-39 | a non-`datetime` gives `"[N/A]"`; a `datetime` gives its rendering, or `"[Invalid timestamp: …]"` when rendering raises; main.py:38-44 is the same code |
| `Turns.SourceSet` | app.py:76 | the set holds each retrieved document's source and nothing else, and is no larger than the document list |
| `Turns.FormattedResponse` | app.py:77 | the answer is the raw result, then `" \n\n "`, then the citation listing; with no documents it ends with the separator alone |
| `Turns.CitedLineCount` | main.py:80-83 | the citation block has one line per distinct source, never more than the retrieved documents |
| `ChatSession.UserLine` | app.py:114 | the line opens with `User (`, the formatted timestamp and `): `, ends with the prompt and one newline, and has exactly the length of those parts, so nothing lies between them |
| `ChatSession.AssistantLine` | app.py:115 | the line opens with `Assistant (`, the formatted timestamp and `): `, ends with the answer and a blank line, and has exactly the length of those parts, so nothing lies between them |
| `ChatSession.ZipLength` | app.py:109-113 | `zip` stops at the shortest of the three lists |
| `ChatSession.TranscriptUpToStart` | app.py:108-115 | a transcript of at least one turn opens with the first turn's block, its user line and then its assistant line |
| `ChatSession.TranscriptUpToEnd` | app.py:108-115 | a transcript of at least one turn closes with the last turn's block |
| `ChatSession.Transcript` | app.py:108-115 | `history_text` is empty exactly when `zip` yields nothing, and otherwise opens with the first turn's block |
| `ChatSession.AnswerCitesResult` | app.py:77 | the displayed answer starts with the raw result followed by `" \n\n "` |
| `ChatSession.RecordKeepsTurns` | app.py:80-84 | appending one turn's entries keeps every turn consistent across the prompt, answer and chat lists |
| `ChatSession.TranscriptAppend` | app.py:108-115 | recording one more turn extends the transcript by exactly that turn's `User (…)`/`Assistant (…)` block |
| `ChatSession.Session.constructor` | app.py:17-24 | the session starts with four empty lists and no turns |
| `ChatSession.Session.RecordTurn` | app.py:80-84 | one entry is appended to the prompt, answer and timestamp lists. Two entries go to `chat_history`: `(human, prompt)`, then `(ai, raw result)`. The answer list gets the formatted response. The lockstep invariant is kept |
| `ChatSession.Session.Reset` | app.py:101-104 | all four lists become empty and the invariant holds with zero turns |
| `ChatSession.Session.ExportTranscript` | app.py:108-115 | the loop's `history_text` equals the transcript function of the three lists, which covers every recorded turn |
| `Pages.AppSubmit` | app.py:62-84 | an empty prompt, or a `run_llm` that raises, changes nothing; otherwise exactly one turn is recorded |
| `Pages.MainSubmit` | main.py:67-91 | main.py's turn handling: the same appends, with the raw result in `chat_history` and the formatted one in the answers, and nothing recorded when `run_llm` raises |
| `Pages.AppResetButton` | app.py:95-105 | the reset control acts only on a started chat; after a press the session is empty in every case |
| `Pages.AppDownload` | app.py:95-125 | a transcript is offered exactly when the answer list is non-empty, and it is the export of the session |
| `Ingestion.CrawledPages` | ingestion.py:80 | `result.data or []`: `None` gives no pages |
| `Ingestion.Content` | ingestion.py:84 | `page.markdown or page.html or ""`: the markdown when non-empty, else the html when non-empty, else `""` |
| `Ingestion.KeptIffContent` | ingestion.py:84-87 | the filter keeps a page exactly when its content would be non-empty |
| `Ingestion.ToDocument` | ingestion.py:83-86 | content is `page.markdown or page.html or ""`; the only metadata key is `source`, taken from `sourceURL` when that key is present, else from the base URL |
| `Ingestion.BuildDocuments` | ingestion.py:82-88 | at most one document per page; every document has non-empty content and a source |
| `Ingestion.KeptIndices` | ingestion.py:87 | the kept positions are ascending, in range, and are exactly the pages with markdown or html |
| `Ingestion.DocumentsAreKeptPages` | ingestion.py:82-88 | the documents are the kept pages converted, in page order |
| `Ingestion.NoDataNoDocuments` | ingestion.py:80-88 | crawl data of `None` yields no documents |
| `Ingestion.NameString` | ingestion.py:101 | the name is the source, one `#`, then the hash, at fixed positions |
| `Ingestion.SplitName` | ingestion.py:101 | reading a name from its end gives a source and a 32-character hash that rebuild the name |
| `Ingestion.NameRoundTrip` | ingestion.py:101 | the name `source#hash` with a 32-character hash reads back as exactly that pair |
| `Ingestion.NameInjective` | ingestion.py:101 | with 32-character hashes, equal names mean equal sources and equal hashes, even when a source contains `#` |
| `Ingestion.NameAmbiguousWithoutFixedLength` | ingestion.py:101 | without the fixed length, `#` alone would not separate the pair |
| `Ingestion.GenerateId` | ingestion.py:99-101 | the ID is a function of the chunk's (source, content) pair alone |
| `Ingestion.IdNameDeterminesChunkKey` | ingestion.py:99-101 | the name a chunk's ID is derived from reads back as its source and its content hash |
| `Ingestion.IdNamesEqualIff` | ingestion.py:99-101 | two chunks' names are equal exactly when their sources and content hashes are |
| `Ingestion.BuildUpload` | ingestion.py:103-106 | all three lists have one entry per chunk: the chunk's ID, its content and its metadata, index for index. Chunks with equal source and content get equal IDs. A chunk without `source` is the `KeyError` |
| `Ingestion.UploadIdsAreKeyIds` | ingestion.py:99-103 | the set of IDs in a batch is the image of its set of (source, content) pairs |
| `Ingestion.DistinctIdsBound` | ingestion.py:99-114 | a batch has no more distinct IDs than distinct (source, content) pairs, so repeated or unchanged chunks overwrite one record |
| `Ingestion.BatchFor` | ingestion.py:70-114 | one base URL's batch fails at the first step that raises, in source order: the crawl, a chunk without `source`, then the upload; an uploaded batch is the three lists of its chunks, accepted by the store |
| `Ingestion.IngestDocs2` | ingestion.py:69-116 | the base URLs are processed in order, each into its batch. The run stops at the first batch that raises and reports which step raised; all earlier batches are uploaded |

## Left out

- Streamlit rendering is not modelled: page setup, the history display loop (app.py:46-57), the latest-turn display (app.py:86-92), `st.spinner`, `st.rerun`, the columns and the download button's `io.BytesIO` encoding. They only display what the session holds.
- The session-state initialisation is modelled as one constructor that sets all four lists. The per-key `if ... not in st.session_state` guards (app.py:17-24, main.py:19-26) matter only across Streamlit reruns.
- `run_llm` is not modelled: app.py imports it from backend/rag_pipeline.py (app.py:3), and main.py imports it from `backend.core` (main.py:3), which is not part of this model. It is a chain of LangChain, OpenAI and Pinecone calls. Its answer is an `Option<LlmResponse>` parameter.
- `Turns.SourceDocument` keeps only the retrieved chunk's `metadata["source"]`. A retrieved chunk without that key would raise `KeyError` at app.py:76; that case is not modelled.
- `datetime.now`, the pytz zone and `strftime` are not modelled. A timestamp is an abstract `Stamp` and the renderer is a parameter, so app.py's zone-aware clock and main.py's naive clock are not told apart.
- The output of `Ingestion.IngestDocs2` is the list of uploads and the failure, if any. Nothing models Firecrawl, `RecursiveCharacterTextSplitter`, `OpenAIEmbeddings`, `PineconeVectorStore.from_texts`, `load_dotenv` or the `print` calls. The crawler, the splitter and the store are parameters, so no chunk size or overlap bound is claimed.
- Ingestion.BatchFor: an upload that raises is a failed batch with nothing uploaded. The records the store may already have written before raising are not modelled.
- MD5 (RFC 1321) and UUIDv5 (section 4.3 of RFC 4122) internals are not modelled, and neither is the `.encode("utf-8")` before hashing. `md5Hex` is assumed only to return 32 hex digits. No collision resistance is claimed, so different names may still give one ID.
- The commented-out `ingest_docs` string block (ingestion.py:19-43) is not modelled.
- Citations.ListingLines: requires that no URL contains a newline. With a newline inside a URL, reading the listing back line by line could not separate the entries.
- Citations.ListingLineCount: requires newline-free URLs, for the same reason.
- Citations.NoTrailingNewline: requires newline-free URLs. A URL that itself ends in a newline would end the listing with one.
- Turns.CitedLineCount: requires newline-free sources, for the same reason.
