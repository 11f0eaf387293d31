/** `WebSearchTool.search_blogs`: the web query for a café and the shaping of
    the search backend's results. The backend is a function from query text to
    its list of result objects. */
module WebSearch {
  import opened Values
  import opened Text

  /** The number of results the backend is asked for. */
  const MaxResults := 5

  /** One shaped web result. */
  datatype Blog = Blog(title: Json, href: Json, body: Json)

  /** The keywords a search adds; `None` and the empty list add none. */
  function Words(keywords: Option<seq<string>>): seq<string> {
    match keywords
    case None => []
    case Some(ws) => ws
  }

  /** The query: the café name and then each keyword, all joined by single spaces. */
  function BlogQuery(cafeName: string, keywords: Option<seq<string>>): (q: string)
    ensures |cafeName| <= |q| && q[..|cafeName|] == cafeName
    ensures Words(keywords) != [] ==> |q| > |cafeName| && q[|cafeName|] == ' '
  {
    JoinCons(cafeName, Words(keywords));
    Join([cafeName] + Words(keywords))
  }

  /** Without keywords the query is exactly the name. */
  lemma QueryWithoutKeywords(cafeName: string, keywords: Option<seq<string>>)
    requires Words(keywords) == []
    ensures BlogQuery(cafeName, keywords) == cafeName
  {
    assert [cafeName] + Words(keywords) == [cafeName];
  }

  /** With keywords the query is the name, a space, and the keywords joined by single spaces. */
  lemma QueryWithKeywords(cafeName: string, keywords: seq<string>)
    requires keywords != []
    ensures BlogQuery(cafeName, Some(keywords)) == cafeName + " " + Join(keywords)
  {
    JoinCons(cafeName, keywords);
  }

  /** When neither the name nor a keyword holds a space, the query splits back
      into the name followed by the keywords in order. */
  lemma QuerySplitsIntoTerms(cafeName: string, keywords: Option<seq<string>>)
    requires ' ' !in cafeName
    requires forall k :: 0 <= k < |Words(keywords)| ==> ' ' !in Words(keywords)[k]
    ensures SplitOnSpace(BlogQuery(cafeName, keywords)) == [cafeName] + Words(keywords)
  {
    var terms := [cafeName] + Words(keywords);
    assert forall k :: 0 <= k < |terms| ==> ' ' !in terms[k] by {
      forall k | 0 <= k < |terms| ensures ' ' !in terms[k] {
        if k > 0 {
          assert terms[k] == Words(keywords)[k - 1];
        }
      }
    }
    SplitJoin(terms);
  }

  /** The shaped form of one raw result: its "title", "href" and "body", `None` where absent. */
  function Refine(r: Object): Blog {
    Blog(Get(r, "title"), Get(r, "href"), Get(r, "body"))
  }

  /** The shaped results: one per raw result, in order. */
  function RefineAll(raw: seq<Object>): (blogs: seq<Blog>)
    ensures |blogs| == |raw|
    ensures forall i :: 0 <= i < |raw| ==> blogs[i] == Refine(raw[i])
  {
    seq(|raw|, i requires 0 <= i < |raw| => Refine(raw[i]))
  }

  /** What `search_blogs(cafe_name, keywords)` returns when the backend is `web`. */
  function BlogsFor(cafeName: string, keywords: Option<seq<string>>, web: string -> seq<Object>): seq<Blog> {
    RefineAll(web(BlogQuery(cafeName, keywords)))
  }

  /** `search_blogs(cafe_name, keywords)`: composes the query, asks the backend and shapes its results. */
  method SearchBlogs(cafeName: string, keywords: Option<seq<string>>, web: string -> seq<Object>)
    returns (results: seq<Blog>)
    ensures |results| == |web(BlogQuery(cafeName, keywords))|
    ensures forall i :: 0 <= i < |results| ==> results[i] == Refine(web(BlogQuery(cafeName, keywords))[i])
    ensures |web(BlogQuery(cafeName, keywords))| <= MaxResults ==> |results| <= MaxResults
    ensures results == BlogsFor(cafeName, keywords, web)
  {
    var searchQuery := cafeName;
    if keywords.Some? && keywords.value != [] {
      searchQuery := searchQuery + " " + Join(keywords.value);
      QueryWithKeywords(cafeName, keywords.value);
    } else {
      QueryWithoutKeywords(cafeName, keywords);
    }
    var raw := web(searchQuery);
    results := [];
    for i := 0 to |raw|
      invariant |results| == i
      invariant forall k :: 0 <= k < i ==> results[k] == Refine(raw[k])
    {
      results := results + [Refine(raw[i])];
    }
  }
}
