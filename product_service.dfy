/**
 * The product question handler: fetch the nearest catalogue entries for the
 * question, render them as one block of text and have the model answer from it.
 */
module ProductService {
  import opened Wrappers
  import opened Text

  /** The catalogue fields stored with each embedding; any may be absent. */
  datatype Metadata = Metadata(
    productName: Option<string>,
    category: Option<string>,
    section: Option<string>,
    text: Option<string>)

  /** One search hit; its metadata may be absent. */
  datatype Match = Match(metadata: Option<Metadata>)

  const NoMatchesError := "No matching embeddings found"
  const NoResponseError := "No response received from chat completion"

  /** A template-literal interpolation of an optional value. */
  function Show(v: Option<string>): string {
    if v.Some? then v.value else "undefined"
  }

  /** One hit as the prompt shows it; the continuation lines keep the template's ten-space indent. */
  function Entry(m: Match): (r: string)
    ensures StartsWith(r, "Product: ")
  {
    var md := if m.metadata.Some? then m.metadata.value else Metadata(None, None, None, None);
    "Product: " + Show(md.productName)
      + "\n          Category: " + Show(md.category)
      + "\n          Section: " + Show(md.section)
      + "\n          Details: " + Show(md.text)
  }

  function Entries(matches: seq<Match>): (r: seq<string>)
    ensures |r| == |matches|
    ensures forall i :: 0 <= i < |matches| ==> r[i] == Entry(matches[i])
  {
    seq(|matches|, i requires 0 <= i < |matches| => Entry(matches[i]))
  }

  /** The hits rendered in search order, separated by blank lines. */
  function ProductInfo(matches: seq<Match>): string {
    Join(Entries(matches), "\n\n")
  }

  /**
   * The rendered block keeps the search order: the hits before position `k`
   * come first, then a blank line, then the rest.
   */
  lemma ProductInfoSplit(matches: seq<Match>, k: nat)
    requires 0 < k < |matches|
    ensures ProductInfo(matches) == ProductInfo(matches[..k]) + "\n\n" + ProductInfo(matches[k..])
  {
    JoinSplit(Entries(matches), "\n\n", k);
    assert Entries(matches)[..k] == Entries(matches[..k]);
    assert Entries(matches)[k..] == Entries(matches[k..]);
  }

  /** A non-empty result starts with the first hit's entry, so the block is never blank. */
  lemma ProductInfoStartsWithFirst(matches: seq<Match>)
    requires |matches| > 0
    ensures StartsWith(ProductInfo(matches), Entry(matches[0]))
    ensures ProductInfo(matches) != ""
  {
    if |matches| > 1 {
      ProductInfoSplit(matches, 1);
      assert Entries(matches[..1]) == [Entry(matches[0])];
    } else {
      assert Entries(matches) == [Entry(matches[0])];
    }
  }

  /**
   * `getProductDetails` with `getRelevantProductInfo`.  `search` is the settled
   * text search for the question, `complete` the chat completion given the
   * rendered block and the question.
   */
  function GetProductDetails(question: string, search: Result<seq<Match>>,
                             complete: (string, string) -> Result<string>): (r: Result<string>)
    ensures search.Err? ==> r == Err(search.error)
    ensures search == Ok([]) ==> r == Err(NoMatchesError)
    ensures r.Ok? <==> search.Ok? && |search.value| > 0
                       && complete(ProductInfo(search.value), question).Ok?
                       && complete(ProductInfo(search.value), question).value != ""
    ensures r.Ok? ==> r == complete(ProductInfo(search.value), question)
  {
    match search
    case Err(e) => Err(e)
    case Ok(matches) =>
      if |matches| == 0 then Err(NoMatchesError)
      else
        match complete(ProductInfo(matches), question)
        case Err(e) => Err(e)
        case Ok(answer) => if answer == "" then Err(NoResponseError) else Ok(answer)
  }
}
