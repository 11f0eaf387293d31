/** `CafeAgent`: one conversational turn. The router reply picks a branch;
    CHAT and FOLLOW_UP make one more model call, SEARCH gathers evidence per
    candidate and has it synthesised into a report that is remembered. */
module Agent {
  import opened Values
  import opened Router
  import opened GoogleMaps
  import opened WebSearch

  /** The reply of a SEARCH turn that found no candidate. */
  const NoResultsReply := "目前在該地區找不到符合條件的咖啡廳，建議嘗試調整需求（例如放寬插座或特定甜點限制）。"
  /** At most this many web excerpts are kept per candidate. */
  const MaxBlogEvidence := 2

  /** One remembered exchange: `{"q": ..., "a": ...}`. */
  datatype Turn = Turn(q: string, a: string)

  /** The evidence gathered for one candidate (`cafe_summary`). */
  datatype CafeSummary = CafeSummary(
    name: Json, rating: Json, address: Json,
    reviews: seq<Json>, blogEvidence: seq<Json>, url: Json)

  /** A request to the language model, by the data that feeds it; the wording
      of each prompt and its system instruction are fixed per kind. */
  datatype Prompt =
    | RoutingPrompt(userQuery: string)
    | ChatPrompt(userQuery: string)
    | FollowUpPrompt(recent: seq<Turn>, userQuery: string)
    | SynthesisPrompt(userQuery: string, needs: Json, evidence: seq<CafeSummary>)

  /** One call to the outside world, in the order a turn makes them. */
  datatype Call =
    | Generate(prompt: Prompt)
    | PlacesSearch(query: Json)
    | PlaceDetails(placeId: Json)
    | WebQuery(text: string)

  /** How a turn ends: a reply, or an exception out of `run`. */
  datatype Outcome = Returned(reply: string) | Raised

  /** The collaborators of one turn, as functions: the language model (which
      answers every prompt with text), `json.loads` (`None` where it raises),
      the Places text search, Place Details, and the web search backend. */
  datatype Env = Env(
    llm: Prompt -> string,
    parse: string -> Option<Json>,
    places: Json -> PlacesResponse,
    details: Json -> DetailsResponse,
    web: string -> seq<Object>)

  /** Everything a turn decides: its branch, its outcome, its calls and the new history. */
  datatype Step = Step(intent: Intent, outcome: Outcome, calls: seq<Call>, history: seq<Turn>)

  /** `history[-1:]`: the last turn, or nothing when the history is empty. */
  function Recent(history: seq<Turn>): (r: seq<Turn>)
    ensures history == [] ==> r == []
    ensures history != [] ==> r == [history[|history| - 1]]
  {
    history[if |history| == 0 then 0 else |history| - 1..]
  }

  /** `[b['body'] for b in blogs[:2]]` */
  function BlogEvidence(blogs: seq<Blog>): (e: seq<Json>)
    ensures |e| == Min(MaxBlogEvidence, |blogs|) <= MaxBlogEvidence
    ensures forall i :: 0 <= i < |e| ==> e[i] == blogs[i].body
  {
    var top := blogs[..Min(MaxBlogEvidence, |blogs|)];
    seq(|top|, i requires 0 <= i < |top| => top[i].body)
  }

  /** The evidence record for one candidate: its name, rating and address, the
      review texts and map link of its details, and the first web excerpts. */
  function Summary(cafe: Cafe, env: Env): (s: CafeSummary)
    ensures s.name == cafe.name && s.rating == cafe.rating && s.address == cafe.address
    ensures s.reviews == GetCafeDetails(cafe.placeId, env.details).reviews
    ensures s.url == GetCafeDetails(cafe.placeId, env.details).url
    ensures s.blogEvidence == BlogEvidence(BlogsFor(Str(cafe.name), None, env.web))
    ensures |s.reviews| <= MaxReviews && |s.blogEvidence| <= MaxBlogEvidence
  {
    var details := GetCafeDetails(cafe.placeId, env.details);
    var blogs := BlogsFor(Str(cafe.name), None, env.web);
    CafeSummary(cafe.name, cafe.rating, cafe.address, details.reviews, BlogEvidence(blogs), details.url)
  }

  /** `all_cafe_info`: one record per candidate, in candidate order. */
  function Evidence(cafes: seq<Cafe>, env: Env): (info: seq<CafeSummary>)
    ensures |info| == |cafes|
    ensures forall i :: 0 <= i < |cafes| ==> info[i] == Summary(cafes[i], env)
  {
    seq(|cafes|, i requires 0 <= i < |cafes| => Summary(cafes[i], env))
  }

  /** The calls made for one candidate: its details, then the web search on its name. */
  function CallsFor(cafe: Cafe): seq<Call> {
    [PlaceDetails(cafe.placeId), WebQuery(BlogQuery(Str(cafe.name), None))]
  }

  /** The calls of the evidence loop, candidate after candidate. */
  function CandidateCalls(cafes: seq<Cafe>): seq<Call>
    decreases |cafes|
  {
    if cafes == [] then [] else CallsFor(cafes[0]) + CandidateCalls(cafes[1..])
  }

  lemma {:induction false} CandidateCallsAppend(cafes: seq<Cafe>, cafe: Cafe)
    ensures CandidateCalls(cafes + [cafe]) == CandidateCalls(cafes) + CallsFor(cafe)
    decreases |cafes|
  {
    if cafes == [] {
      assert [cafe][1..] == [];
    } else {
      assert (cafes + [cafe])[1..] == cafes[1..] + [cafe];
      CandidateCallsAppend(cafes[1..], cafe);
    }
  }

  /** The evidence loop asks each candidate's details and then its web search,
      two calls per candidate, in candidate order. */
  lemma {:induction false} CandidateCallsOrder(cafes: seq<Cafe>)
    ensures |CandidateCalls(cafes)| == 2 * |cafes|
    ensures forall i :: 0 <= i < |cafes| ==>
      && CandidateCalls(cafes)[2 * i] == PlaceDetails(cafes[i].placeId)
      && CandidateCalls(cafes)[2 * i + 1] == WebQuery(BlogQuery(Str(cafes[i].name), None))
    decreases |cafes|
  {
    if cafes != [] {
      CandidateCallsOrder(cafes[1..]);
      var rest := CandidateCalls(cafes[1..]);
      forall i | 0 <= i < |cafes|
        ensures CandidateCalls(cafes)[2 * i] == PlaceDetails(cafes[i].placeId)
        ensures CandidateCalls(cafes)[2 * i + 1] == WebQuery(BlogQuery(Str(cafes[i].name), None))
      {
        if i > 0 {
          assert CandidateCalls(cafes)[2 * i] == rest[2 * (i - 1)];
          assert CandidateCalls(cafes)[2 * i + 1] == rest[2 * (i - 1) + 1];
        }
      }
    }
  }

  /** The branch the router reply picks for `userQuery`. */
  function Routed(userQuery: string, env: Env): Intent {
    Route(env.parse(CleanReply(env.llm(RoutingPrompt(userQuery)))), userQuery)
  }

  /** What one turn does, given the history before it: the routing call comes
      first, only an unrecognised tag raises, and only a SEARCH report is
      remembered. */
  function Respond(history: seq<Turn>, userQuery: string, env: Env): (s: Step)
    ensures s.intent == Routed(userQuery, env)
    ensures |s.calls| >= 1 && s.calls[0] == Generate(RoutingPrompt(userQuery))
    ensures s.outcome.Raised? <==> s.intent.Unrecognised?
    ensures s.history == history || (s.intent.Search? && s.outcome.Returned? && s.history == history + [Turn(userQuery, s.outcome.reply)])
  {
    var routing := [Generate(RoutingPrompt(userQuery))];
    var intent := Routed(userQuery, env);
    match intent
    case Chat =>
      var p := ChatPrompt(userQuery);
      Step(intent, Returned(env.llm(p)), routing + [Generate(p)], history)
    case FollowUp =>
      var p := FollowUpPrompt(Recent(history), userQuery);
      Step(intent, Returned(env.llm(p)), routing + [Generate(p)], history)
    case Search(query, needs) =>
      var cafes := Candidates(env.places(query));
      var searched := routing + [PlacesSearch(query)];
      if cafes == [] then
        Step(intent, Returned(NoResultsReply), searched, history)
      else
        var p := SynthesisPrompt(userQuery, needs, Evidence(cafes, env));
        var report := env.llm(p);
        Step(intent, Returned(report), searched + CandidateCalls(cafes) + [Generate(p)], history + [Turn(userQuery, report)])
    case Unrecognised(_) =>
      Step(intent, Raised, routing, history)
  }

  /** The evidence loop: for each candidate in order, its details, then the web
      search on its name, then its record. */
  method GatherEvidence(cafes: seq<Cafe>, env: Env) returns (info: seq<CafeSummary>, calls: seq<Call>)
    ensures info == Evidence(cafes, env)
    ensures calls == CandidateCalls(cafes)
  {
    info, calls := [], [];
    for i := 0 to |cafes|
      invariant |info| == i
      invariant forall k :: 0 <= k < i ==> info[k] == Summary(cafes[k], env)
      invariant calls == CandidateCalls(cafes[..i])
    {
      var cafe := cafes[i];
      calls := calls + [PlaceDetails(cafe.placeId)];
      var details := GetCafeDetails(cafe.placeId, env.details);
      calls := calls + [WebQuery(BlogQuery(Str(cafe.name), None))];
      var blogs := SearchBlogs(Str(cafe.name), None, env.web);
      info := info + [CafeSummary(cafe.name, cafe.rating, cafe.address, details.reviews, BlogEvidence(blogs), details.url)];
      CandidateCallsAppend(cafes[..i], cafe);
      assert cafes[..i + 1] == cafes[..i] + [cafe];
    }
    assert cafes[..|cafes|] == cafes;
  }

  // ------------------------------------------------------- one turn, by branch

  /** CHAT: exactly one further model call, on the chat prompt; its reply is
      returned and the history is unchanged. */
  lemma ChatTurn(history: seq<Turn>, userQuery: string, env: Env)
    requires Routed(userQuery, env) == Chat
    ensures Respond(history, userQuery, env) ==
      Step(Chat, Returned(env.llm(ChatPrompt(userQuery))),
           [Generate(RoutingPrompt(userQuery)), Generate(ChatPrompt(userQuery))], history)
  {
  }

  /** FOLLOW_UP: exactly one further model call, fed with `history[-1:]` and the
      query; its reply is returned and the history is unchanged. */
  lemma FollowUpTurn(history: seq<Turn>, userQuery: string, env: Env)
    requires Routed(userQuery, env) == FollowUp
    ensures Respond(history, userQuery, env) ==
      Step(FollowUp, Returned(env.llm(FollowUpPrompt(Recent(history), userQuery))),
           [Generate(RoutingPrompt(userQuery)), Generate(FollowUpPrompt(Recent(history), userQuery))], history)
  {
  }

  /** FOLLOW_UP reads nothing of the history but its last turn: two histories
      that end alike give the same reply and the same calls. */
  lemma FollowUpSeesOnlyLastTurn(h1: seq<Turn>, h2: seq<Turn>, userQuery: string, env: Env)
    requires Routed(userQuery, env) == FollowUp
    requires (h1 == [] && h2 == []) || (h1 != [] && h2 != [] && h1[|h1| - 1] == h2[|h2| - 1])
    ensures Respond(h1, userQuery, env).outcome == Respond(h2, userQuery, env).outcome
    ensures Respond(h1, userQuery, env).calls == Respond(h2, userQuery, env).calls
  {
    assert Recent(h1) == Recent(h2);
  }

  /** SEARCH with no candidate: the fixed reply, no call after the place search
      (so no synthesis), and the history unchanged. */
  lemma NoCandidatesTurn(history: seq<Turn>, userQuery: string, env: Env, query: Json, needs: Json)
    requires Routed(userQuery, env) == Search(query, needs)
    requires Candidates(env.places(query)) == []
    ensures Respond(history, userQuery, env) ==
      Step(Search(query, needs), Returned(NoResultsReply),
           [Generate(RoutingPrompt(userQuery)), PlacesSearch(query)], history)
  {
  }

  /** SEARCH with candidates: one evidence record per candidate in candidate
      order, one synthesis call at the end, its report returned and remembered
      as exactly one new turn. */
  lemma SearchTurn(history: seq<Turn>, userQuery: string, env: Env, query: Json, needs: Json)
    requires Routed(userQuery, env) == Search(query, needs)
    requires Candidates(env.places(query)) != []
    ensures var cafes := Candidates(env.places(query));
      var s := Respond(history, userQuery, env);
      var p := SynthesisPrompt(userQuery, needs, Evidence(cafes, env));
      && s.outcome == Returned(env.llm(p))
      && s.history == history + [Turn(userQuery, env.llm(p))]
      && s.calls == [Generate(RoutingPrompt(userQuery)), PlacesSearch(query)] + CandidateCalls(cafes) + [Generate(p)]
      && |p.evidence| == |cafes| <= MaxCandidates
      && forall i :: 0 <= i < |cafes| ==>
           && p.evidence[i].name == cafes[i].name
           && p.evidence[i].rating == cafes[i].rating
           && p.evidence[i].address == cafes[i].address
           && p.evidence[i].reviews == GetCafeDetails(cafes[i].placeId, env.details).reviews
           && p.evidence[i].url == GetCafeDetails(cafes[i].placeId, env.details).url
           && |p.evidence[i].reviews| <= MaxReviews
           && |p.evidence[i].blogEvidence| <= MaxBlogEvidence
  {
  }

  /** An `intent` outside the three tags reaches the synthesis step with
      `all_cafe_info` unbound: the turn raises after the routing call alone,
      and the history is unchanged. It is not treated as CHAT. */
  lemma UnrecognisedTurn(history: seq<Turn>, userQuery: string, env: Env)
    requires Routed(userQuery, env).Unrecognised?
    ensures Respond(history, userQuery, env) ==
      Step(Routed(userQuery, env), Raised, [Generate(RoutingPrompt(userQuery))], history)
  {
  }

  /** A router reply shaped like the prompt's own SEARCH example, with the
      refined query under "query", is searched with the raw user query,
      since only "search_query" is read. */
  lemma ExampleQueryKeyIsIgnored(userQuery: string, env: Env, m: Object)
    requires env.parse(CleanReply(env.llm(RoutingPrompt(userQuery)))) == Some(JObject(m))
    requires "intent" in m && m["intent"] == JString("SEARCH")
    requires "search_query" !in m
    ensures Routed(userQuery, env).Search? && Routed(userQuery, env).query == JString(userQuery)
  {
  }

  /** A turn either leaves the history alone or, on a SEARCH that returned a
      report, appends exactly the turn (query, report). */
  lemma HistoryAppendOnly(history: seq<Turn>, userQuery: string, env: Env)
    ensures var s := Respond(history, userQuery, env);
      || s.history == history
      || (s.intent.Search? && s.outcome.Returned? && s.history == history + [Turn(userQuery, s.outcome.reply)])
  {
  }

  // -------------------------------------------------------------- many turns

  /** One user utterance and the collaborators' behaviour during its turn. */
  datatype Request = Request(query: string, env: Env)

  function Queries(requests: seq<Request>): (qs: seq<string>)
    ensures |qs| == |requests|
    ensures forall i :: 0 <= i < |requests| ==> qs[i] == requests[i].query
  {
    seq(|requests|, i requires 0 <= i < |requests| => requests[i].query)
  }

  /** The history after one request's turn. */
  function NextHistory(history: seq<Turn>, request: Request): seq<Turn> {
    Respond(history, request.query, request.env).history
  }

  /** One turn keeps the old history as a prefix and adds at most one turn, on its own query. */
  lemma NextHistoryGrows(history: seq<Turn>, request: Request)
    ensures var h := NextHistory(history, request);
      && |history| <= |h| <= |history| + 1
      && h[..|history|] == history
      && (|h| > |history| ==> h[|history|].q == request.query)
  {
    HistoryAppendOnly(history, request.query, request.env);
  }

  /** The history after the requests, one turn each, starting from `history`. */
  function Replay(history: seq<Turn>, requests: seq<Request>): seq<Turn>
    decreases |requests|
  {
    if requests == [] then history
    else Replay(NextHistory(history, requests[0]), requests[1..])
  }

  /** Over any run of turns the history only grows, by at most one turn per
      request, and keeps what it held as a prefix. */
  lemma {:induction false} ReplayAppendOnly(history: seq<Turn>, requests: seq<Request>)
    ensures var h := Replay(history, requests);
      && |history| <= |h| <= |history| + |requests|
      && h[..|history|] == history
    decreases |requests|
  {
    if requests != [] {
      var next := NextHistory(history, requests[0]);
      NextHistoryGrows(history, requests[0]);
      ReplayAppendOnly(next, requests[1..]);
      var h := Replay(next, requests[1..]);
      assert h[..|history|] == h[..|next|][..|history|];
    }
  }

  /** Every turn the history gains over a run of turns records a query that was asked. */
  lemma {:induction false} ReplayRecordsAskedQueries(history: seq<Turn>, requests: seq<Request>)
    ensures var h := Replay(history, requests);
      forall k :: |history| <= k < |h| ==> h[k].q in Queries(requests)
    decreases |requests|
  {
    if requests != [] {
      var rest := requests[1..];
      var next := NextHistory(history, requests[0]);
      var h := Replay(next, rest);
      assert Replay(history, requests) == h;
      assert Queries(requests) == [requests[0].query] + Queries(rest);
      NextHistoryGrows(history, requests[0]);
      ReplayAppendOnly(next, rest);
      ReplayRecordsAskedQueries(next, rest);
      forall k | |history| <= k < |h| ensures h[k].q in Queries(requests) {
        if k < |next| {
          assert h[k] == h[..|next|][k] == next[k];
        } else {
          assert h[k].q in Queries(rest);
        }
      }
    }
  }

  /** A fresh agent remembers at most one turn per request, each on a query that was asked. */
  lemma FromEmptyHistory(requests: seq<Request>)
    ensures |Replay([], requests)| <= |requests|
    ensures forall k :: 0 <= k < |Replay([], requests)| ==> Replay([], requests)[k].q in Queries(requests)
  {
    ReplayAppendOnly([], requests);
    ReplayRecordsAskedQueries([], requests);
  }

  /** Two candidates, each with one review and one web result: the synthesis
      prompt carries both candidates, in order, each with that review and
      excerpt and its map link, and exactly one turn is remembered. */
  lemma TwoCandidateSearch(history: seq<Turn>, userQuery: string, env: Env, query: Json, needs: Json, p1: Object, p2: Object)
    requires Routed(userQuery, env) == Search(query, needs)
    requires Results(env.places(query)) == [p1, p2]
    requires forall place :: place in [p1, p2] ==>
      var d := GetCafeDetails(Get(place, "place_id"), env.details);
      |d.reviews| == 1 && |env.web(Str(Get(place, "name")))| == 1
    ensures var s := Respond(history, userQuery, env);
      && |s.history| == |history| + 1 && s.history[|history|].q == userQuery
      && |s.calls| == 7 && s.calls[6].Generate?
      && var ev := s.calls[6].prompt.evidence;
      && |ev| == 2
      && ev[0].name == Get(p1, "name") && ev[1].name == Get(p2, "name")
      && ev[0].url == GetCafeDetails(Get(p1, "place_id"), env.details).url
      && ev[1].url == GetCafeDetails(Get(p2, "place_id"), env.details).url
      && (forall i :: 0 <= i < 2 ==> |ev[i].reviews| == 1 && |ev[i].blogEvidence| == 1)
  {
    var cafes := Candidates(env.places(query));
    assert cafes == [ProjectPlace(p1), ProjectPlace(p2)];
    CandidateCallsOrder(cafes);
    forall i | 0 <= i < 2
      ensures |env.web(BlogQuery(Str(cafes[i].name), None))| == 1
    {
      QueryWithoutKeywords(Str(cafes[i].name), None);
    }
  }

  class CafeAgent {
    /** The remembered exchanges, oldest first. */
    var history: seq<Turn>

    constructor ()
      ensures history == []
    {
      history := [];
    }

    /** `run(user_query)` */
    method Run(userQuery: string, env: Env) returns (intent: Intent, outcome: Outcome, calls: seq<Call>)
      modifies this
      ensures Step(intent, outcome, calls, history) == Respond(old(history), userQuery, env)
      ensures history == old(history)
        || (intent.Search? && outcome.Returned? && history == old(history) + [Turn(userQuery, outcome.reply)])
    {
      var routing := RoutingPrompt(userQuery);
      var rawRes := env.llm(routing);
      calls := [Generate(routing)];
      var cleanRes := CleanReply(rawRes);
      intent := Route(env.parse(cleanRes), userQuery);

      if intent.Chat? {
        var p := ChatPrompt(userQuery);
        calls := calls + [Generate(p)];
        outcome := Returned(env.llm(p));
        return;
      }

      if intent.FollowUp? {
        var p := FollowUpPrompt(Recent(history), userQuery);
        calls := calls + [Generate(p)];
        outcome := Returned(env.llm(p));
        return;
      }

      // `all_cafe_info` is bound only on the SEARCH branch
      var allCafeInfo: Option<seq<CafeSummary>> := None;
      if intent.Search? {
        calls := calls + [PlacesSearch(intent.query)];
        var cafes := SearchCafes(intent.query, env.places);
        if cafes == [] {
          outcome := Returned(NoResultsReply);
          return;
        }
        var info, loopCalls := GatherEvidence(cafes, env);
        calls := calls + loopCalls;
        allCafeInfo := Some(info);
      }

      match allCafeInfo
      case None =>
        // the synthesis prompt reads the unbound `all_cafe_info`
        outcome := Raised;
      case Some(info) =>
        var p := SynthesisPrompt(userQuery, intent.needs, info);
        calls := calls + [Generate(p)];
        var finalReport := env.llm(p);
        history := history + [Turn(userQuery, finalReport)];
        outcome := Returned(finalReport);
    }
  }
}
