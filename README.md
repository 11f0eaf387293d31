# CAFÉ Finder agent core, modelled in Dafny

The CAFÉ Finder agent answers a café request in one turn. A language model
*routes* the utterance to CHAT, FOLLOW_UP or SEARCH. CHAT and FOLLOW_UP make
one more model call. SEARCH looks up candidates with the Google Places text
search, then for each candidate, in order, fetches its Place Details and runs a
web search on its name. It then has the model *synthesise* a report from the
gathered evidence and remembers the exchange `{q, a}` in the agent's `history`.

This project models that turn (`CafeAgent.run` in `main.py`) and the list and
string shaping done by the two search tools (`src/gmaps_tool.py`,
`src/web_search_tool.py`). Every collaborator is a function-valued field of
`Agent.Env`:

- the language model is `llm: Prompt -> string`. `LLMAgent.chat` never raises and
  always answers with text.
- `json.loads` is `parse: string -> Option<Json>`, where `None` means it raised.
- the Places text search, Place Details and the web search backend map a request
  to its decoded response.

A `Prompt` records which data feeds a model call, not its wording. `Run` returns
three things: the branch taken (`Intent`), the outcome (a reply, or `Raised`), and
the ordered log of external calls (`Call`). So "exactly one more model call" and
"no synthesis call" can be stated directly.

Modules:

- `Values` (values.dfy): `Option`, decoded JSON values, `dict.get` and `str()`.
- `Text` (text.dfy): Python's `replace(pat, "")`, `strip()` and `" ".join`, with their lemmas. The program never splits a string. `SplitOnSpace` is here only as the inverse of `Join`, so that `SplitJoin` and `WebSearch.QuerySplitsIntoTerms` can show the composed web query keeps its terms.
- `Router` (router.dfy): fence cleaning and intent defaulting, main.py:44-49, 63 and 96.
- `GoogleMaps` (gmaps_tool.dfy): `search_cafes` and `get_cafe_details`.
- `WebSearch` (web_search_tool.dfy): `search_blogs`.
- `Agent` (cafe_agent.dfy): the class `CafeAgent` with its append-only `history` and `Run`.
  It also holds the specification function `Respond` of one turn, and lemmas by branch and over many turns.

Behaviour of the code a reader may not expect:

- The code's own comment at main.py:47 makes CHAT the default so that the agent
  does not search by mistake. That default covers only a reply that does not
  parse, is not an object, or has no "intent" key. An `intent` value other than
  the three tags is not treated as CHAT. It fails
  all three tests and reaches the synthesis prompt with `all_cafe_info` unbound,
  so `run` raises (`Agent.UnrecognisedTurn`). In `Run` this binding is an
  `Option` that only the SEARCH branch sets.
- The router prompt's SEARCH example puts the refined query under `"query"`.
  The code reads only `"search_query"`, so a reply that follows the example is
  searched with the raw utterance (`Agent.ExampleQueryKeyIsIgnored`).
- The evidence record holds name, rating, address, reviews, web excerpts and map
  link. It does not hold opening hours, although `get_cafe_details` computes them.
- The web search on a candidate is passed no keywords, so its query is the
  candidate's name alone.

## Model

| member | source | states |
|---|---|---|
| `Router.CleanReply` | main.py:44 | the cleaned router reply contains no "```" anywhere and neither starts nor ends with whitespace |
| `Router.RemoveFenceLeavesNone` | main.py:44 | after every "```" is deleted left to right, no "```" remains: no new fence can form across a deletion |
| `Router.CleanBarePayload` | main.py:44 | a reply without backticks or surrounding whitespace is passed to the parser unchanged |
| `Router.CleanFencedPayload` | main.py:44 | a non-empty payload that contains no backtick and neither starts nor ends with whitespace, wrapped in a "```json" fence line and a closing "```" line, is recovered exactly. A payload whose strings contain "```" is not covered |
| `Router.IntentTag` | main.py:45-49 | the tag is "CHAT" when parsing failed, the value is not an object, or it has no "intent" key. Otherwise it is that key's value, whatever it is |
| `Router.Route` | main.py:45-63 | parse failure, a non-object, or a missing "intent" key gives CHAT. Each tag is chosen iff the "intent" field is exactly that string. Any other value is Unrecognised. SEARCH reads "search_query" (default: the raw query) and "target_needs" (default: the empty list) |
| `Text.RemoveAll` | main.py:44 | `replace(pat, "")` never makes a string longer |
| `Text.Strip` | main.py:44 | `strip()` leaves a result that is empty or neither starts nor ends with whitespace |
| `Text.StripWindow` | main.py:44 | `strip()` removes only whitespace and only at the two ends: the result is a contiguous stretch of the input, with only whitespace before and after it |
| `Text.StripLeft` | main.py:44 | `lstrip` removes only leading whitespace and leaves a suffix that is empty or starts with non-whitespace |
| `Text.StripRight` | main.py:44 | `rstrip` removes only trailing whitespace and leaves a prefix that is empty or ends with non-whitespace |
| `Text.StripKeepsAbsence` | main.py:44 | stripping never creates an occurrence of a pattern: any occurrence in the stripped text is one in the original |
| `Text.RemoveAllKeepsPrefix` | main.py:44 | `replace(pat, "")` copies a leading stretch without the pattern's first character unchanged |
| `Text.SplitJoin` | src/web_search_tool.py:25 | joining space-free words with single spaces loses none of them: splitting the join on spaces gives back the words in order. A property of the string model; the program never splits |
| `GoogleMaps.Candidates` | src/gmaps_tool.py:32-40 | at most 5 candidates: the first min(5, n) results in order, each projected to name, place_id, rating, and address from formatted_address, with None for absent fields. No "results" key gives no candidates |
| `GoogleMaps.SearchCafes` | src/gmaps_tool.py:17-41 | the append loop returns exactly `Candidates` of the Places response for the query, so at most 5 |
| `GoogleMaps.OpeningHours` | src/gmaps_tool.py:60 | the hours are "weekday_text" when present, and "未提供" when it or the whole "opening_hours" object is absent |
| `GoogleMaps.GetCafeDetails` | src/gmaps_tool.py:43-63 | at most 5 review texts: the first reviews in order, and "" for a review without "text". Name and url come from the result. A response without "result" gives None, "未提供", None and no reviews |
| `WebSearch.BlogQuery` | src/web_search_tool.py:23-25 | the web query starts with the café name, and with keywords a space follows the name |
| `WebSearch.QueryWithoutKeywords` | src/web_search_tool.py:23-24 | with keywords None or empty, the query is exactly the café name |
| `WebSearch.QueryWithKeywords` | src/web_search_tool.py:23-25 | with keywords, the query is the name, a space, and the keywords joined by single spaces in order |
| `WebSearch.QuerySplitsIntoTerms` | src/web_search_tool.py:23-25 | for space-free terms, the query splits back into the name followed by the keywords |
| `WebSearch.RefineAll` | src/web_search_tool.py:33-40 | one shaped result per raw result, same order, title/href/body copied, None where absent |
| `WebSearch.SearchBlogs` | src/web_search_tool.py:14-41 | composes the query with `+=` and returns the shaped backend results for that query, same length and order. At most 5 when the backend honours max_results=5 |
| `Agent.Respond` | main.py:20-112 | one turn: the routing call comes first and the branch is the routed intent. The outcome is `Raised` iff the tag is unrecognised. The history is unchanged, or on SEARCH gains exactly `Turn(query, reply)` |
| `Agent.Recent` | main.py:57 | `history[-1:]` is empty for an empty history and is the last turn otherwise |
| `Agent.BlogEvidence` | main.py:86 | the bodies of the first min(2, n) web results, in order |
| `Agent.Summary` | main.py:81-88 | a record copies name, rating and address from the candidate, and reviews and url from that candidate's details. It holds at most 5 reviews and 2 web excerpts |
| `Agent.Evidence` | main.py:72-89 | one record per candidate, in candidate order |
| `Agent.CandidateCallsOrder` | main.py:73-78 | the evidence loop makes two calls per candidate in candidate order: details by place id, then web search on the name |
| `Agent.GatherEvidence` | main.py:72-89 | the loop builds exactly `Evidence` of the candidates and makes exactly the calls `CandidateCalls` |
| `Agent.ChatTurn` | main.py:52-53 | CHAT: one more model call on the chat prompt, its reply returned, history unchanged |
| `Agent.FollowUpTurn` | main.py:55-58 | FOLLOW_UP: one more model call fed with `history[-1:]` and the query, history unchanged |
| `Agent.FollowUpSeesOnlyLastTurn` | main.py:57 | histories that end with the same turn give the same FOLLOW_UP reply and calls |
| `Agent.NoCandidatesTurn` | main.py:67-70 | SEARCH with no candidate: the fixed no-results reply, no call after the place search, history unchanged |
| `Agent.SearchTurn` | main.py:60-112 | SEARCH with candidates: the synthesis prompt carries one record per candidate in order. Its reply is returned, and history gains exactly `Turn(query, reply)` |
| `Agent.UnrecognisedTurn` | main.py:52-98 | an intent outside the three tags raises after the routing call alone and leaves history unchanged |
| `Agent.ExampleQueryKeyIsIgnored` | main.py:63 | a SEARCH reply with no "search_query" key (such as the prompt's own example, which uses "query") is searched with the raw utterance |
| `Agent.HistoryAppendOnly` | main.py:108-111 | a turn leaves history alone or, on a SEARCH that produced a report, appends exactly that one turn |
| `Agent.NextHistoryGrows` | main.py:108-111 | one turn keeps the old history as a prefix and adds at most one turn, which records that turn's own query |
| `Agent.ReplayAppendOnly` | main.py:18-111 | over any sequence of turns the history only grows, by at most one turn per request, and keeps its old contents as a prefix |
| `Agent.ReplayRecordsAskedQueries` | main.py:18-111 | every turn the history gains over a sequence of turns records a query that one of those requests asked |
| `Agent.FromEmptyHistory` | main.py:13-18 | from the empty starting history, the remembered turns are at most the requests and each records an asked query |
| `Agent.TwoCandidateSearch` | main.py:60-112 | two candidates with one review and one web result each give a synthesis prompt holding both, in order, with their map links, and exactly one new turn |
| `Agent.CafeAgent.constructor` | main.py:13-18 | a new agent starts with an empty history |
| `Agent.CafeAgent.Run` | main.py:20-112 | the turn's branch, outcome, call log and new history are exactly those of `Respond` on the old history. The history is unchanged or gains exactly the SEARCH turn `(query, report)` |

## Left out

- The Streamlit interface (`app.py`) and its conversion of exceptions into a message. In this model an exception is the outcome `Raised`.
- `LLMAgent.chat` (`src/llm_api.py`) is an oracle that always returns text. Its HTTP request, timeout and error-to-text conversion are not modelled.
- The wording of every prompt and system instruction. Python's `str()` rendering of dicts and lists inside those prompts is also left out. A `Prompt` records only which data feeds the call.
- The internals of the Google Maps client, the DuckDuckGo client and `json.loads`. Their results are inputs. Constant request parameters (`language='zh-TW'`, `type='cafe'`, `location=None`, `region='tw-tzh'`, `max_results=5`) are not carried.
- Responses are typed by the shape of the APIs (a list of place objects, a result object with a reviews list and an opening-hours object). A malformed response that would raise `TypeError` or `AttributeError` in Python is not modelled.
- Network failures and timeouts of the search tools. They propagate unhandled in the code, and here each collaborator is a total function.
- `print` logging, `config` loading, client construction and the `__main__` test blocks.
- Values.Str: `str()` of a list- or dict-valued place name is not rendered (the model uses ""). Names from the Places API are strings or absent.
- Every collaborator is deterministic within one turn, because each is a function of its request. The same prompt would get the same reply, the same place id the same details, and the same web query the same results. Two candidates with the same name, such as two branches of one chain, send the same web query and get the same results in this model. No contract depends on this. Across turns each request carries its own `Env`.
