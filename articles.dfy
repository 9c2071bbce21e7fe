/** Article records, the fixed web addresses, and the answers of the random
    article endpoint as `call_Wikipedia` sees them. */
module Articles {
  import opened Numbers

  /** One entry of the endpoint's `query.random` list. */
  datatype Article = Article(id: nat, title: string)

  const ARTICLE_URL_PREFIX: string := "http://en.wikipedia.org/wiki?curid="

  /** The `rnlimit` of the request: the endpoint is asked for ten random
      main-namespace articles at a time. */
  const RANDOM_BATCH_SIZE: nat := 10
  /** The largest page size the `-n` option accepts. */
  const MAX_PAGE_SIZE: nat := 10
  /** The page size before any option is applied. */
  const DEFAULT_PAGE_SIZE: nat := 5

  /** What one call to the endpoint yields: the article list, or the text of
      the exception raised by the request or the decoding. */
  datatype FetchResult = Fetched(articles: seq<Article>) | FetchFailed(cause: string)

  /** The address opened for an article: the prefix followed by its id, which
      can be read back from the address. */
  function ArticleUrl(a: Article): (url: string)
    ensures |url| > |ARTICLE_URL_PREFIX| && url[..|ARTICLE_URL_PREFIX|] == ARTICLE_URL_PREFIX
    ensures url[|ARTICLE_URL_PREFIX|..] == NatToString(a.id)
    ensures ParseInt(url[|ARTICLE_URL_PREFIX|..]) == Some(a.id as int)
  {
    var digits := NatToString(a.id);
    ParseIntOfNatToString(a.id);
    assert (ARTICLE_URL_PREFIX + digits)[|ARTICLE_URL_PREFIX|..] == digits;
    ARTICLE_URL_PREFIX + digits
  }

  /** All articles delivered by a sequence of answers, in the order delivered;
      a failed answer delivers none. */
  function Delivered(answers: seq<FetchResult>): seq<Article>
    decreases |answers|
  {
    if answers == [] then []
    else
      (if answers[0].Fetched? then answers[0].articles else [])
      + Delivered(answers[1..])
  }

  /** Every successful answer carries at least `pageSize` articles. This is
      enough for the queue to hold a whole page after every refill, but not
      necessary: a shorter answer may still complete a page with what was
      left queued. */
  predicate Supplies(answers: seq<FetchResult>, pageSize: nat) {
    forall i :: 0 <= i < |answers| && answers[i].Fetched? ==> |answers[i].articles| >= pageSize
  }

  /** Answers of the nominal size suffice for every page size the program accepts. */
  lemma FullAnswersSupply(answers: seq<FetchResult>, pageSize: nat)
    requires pageSize <= MAX_PAGE_SIZE
    requires forall i :: 0 <= i < |answers| && answers[i].Fetched? ==> |answers[i].articles| == RANDOM_BATCH_SIZE
    ensures Supplies(answers, pageSize)
  {
  }
}
