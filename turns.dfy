/**
 * What one chat turn derives from the answer of the retrieval pipeline
 * (`run_llm`, outside the model): the set of distinct source URLs and the
 * `formatted_response` shown to the user, in both app.py and main.py.
 */
module Turns {
  import Citations

  /** A retrieved chunk, reduced to its `metadata["source"]`. */
  datatype SourceDocument = SourceDocument(source: string)

  /** The dictionary `run_llm` returns: `result` and `source_documents`. */
  datatype LlmResponse = LlmResponse(result: string, sourceDocuments: seq<SourceDocument>)

  /** `{doc.metadata["source"] for doc in docs}`. */
  function SourceSet(docs: seq<SourceDocument>): (r: set<string>)
    ensures forall i :: 0 <= i < |docs| ==> docs[i].source in r
    ensures forall u :: u in r ==> exists i :: 0 <= i < |docs| && docs[i].source == u
    ensures |r| <= |docs|
    decreases |docs|
  {
    if docs == [] then {}
    else
      var rest := SourceSet(docs[1..]);
      assert forall u :: u in rest ==> exists i :: 0 <= i < |docs| && docs[i].source == u by {
        forall u | u in rest ensures exists i :: 0 <= i < |docs| && docs[i].source == u {
          var k :| 0 <= k < |docs[1..]| && docs[1..][k].source == u;
          assert docs[k + 1].source == u;
        }
      }
      assert forall i :: 1 <= i < |docs| ==> docs[i].source == docs[1..][i - 1].source;
      {docs[0].source} + rest
  }

  /** The separator between the answer and its citations. */
  const Separator: string := " \n\n "

  /** `f"{result} \n\n {create_sources_string(sources)}"`. */
  function FormattedResponse(response: LlmResponse): (r: string)
    ensures |r| >= |response.result| + |Separator|
    ensures r[..|response.result|] == response.result
    ensures r[|response.result|..|response.result| + |Separator|] == Separator
    ensures r[|response.result| + |Separator|..]
         == Citations.CreateSourcesString(SourceSet(response.sourceDocuments))
    ensures response.sourceDocuments == [] ==> r == response.result + Separator
  {
    var head := response.result + Separator;
    var citations := Citations.CreateSourcesString(SourceSet(response.sourceDocuments));
    var r := head + citations;
    assert r[..|response.result|] == response.result;
    assert r[|response.result|..|head|] == Separator;
    assert r[|head|..] == citations;
    r
  }

  /**
   * The citation block has one numbered line per DISTINCT source: several
   * chunks retrieved from one page are cited once, so never more lines than
   * retrieved documents.
   */
  lemma CitedLineCount(response: LlmResponse)
    requires response.sourceDocuments != []
    requires forall i :: 0 <= i < |response.sourceDocuments| ==> '\n' !in response.sourceDocuments[i].source
    ensures var citations := FormattedResponse(response)[|response.result| + |Separator|..];
      var sources := SourceSet(response.sourceDocuments);
      |Citations.Split(citations, '\n')| == 1 + |sources| <= 1 + |response.sourceDocuments|
  {
    var docs := response.sourceDocuments;
    var sources := SourceSet(docs);
    assert docs[0].source in sources;
    forall u | u in sources ensures '\n' !in u {
      var i :| 0 <= i < |docs| && docs[i].source == u;
    }
    Citations.ListingLineCount(sources);
  }
}
