# planner_agent in Dafny

A model of the logic of the AI Task Planning Agent (a Streamlit page in front
of a LangChain agent with a web-search tool and a weather tool), with proofs
of what that logic guarantees. The model covers:

- **The two providers** (`utils/tools.py`, module `Tools` in `tools.dfy`):
  - web search routes to SerpAPI, then to Google Custom Search, then to
    fixed demonstration results;
  - the result lists are cut to `num_results` and projected to title, snippet
    and link;
  - the weather lookup checks `cod` and maps the nested fields of the
    OpenWeather payload;
  - every exception becomes a single-key `{"error": ...}` dictionary whose
    prefix depends on the `except` clause that catches it.
- **The agent's own logic** (`agent/task_agent.py`, module `TaskAgent` in
  `task_agent.dfy`):
  - location cleaning for the weather tool, modelled as the regular
    expression substitution `(weather|forecast|temperature|in|for|at)\s+`;
  - the guard in front of the weather provider;
  - the lenient extraction of a JSON plan from the agent's answer, with its
    two fallbacks.
- **The page's decisions** (`app.py`, module `App` in `app.dfy`):
  - the database configuration check;
  - the "Generate Plan" gate and the prepend to the session's plan list, as
    a class whose method modifies the session;
  - the choice between the raw-text and the day-by-day display;
  - the case-insensitive search over past plans.
- **Support modules**:
  - `basics.dfy`: Option and Result;
  - `text.dfy`: the parts of Python's `str` the source uses (ASCII
    `lower()`, the `\s`/`strip()` whitespace class, `strip()`, substring
    search and character search);
  - `json_value.dfy`: JSON values, dictionaries and Python type names.

## Model

| member | source | states |
|---|---|---|
| Text.Lower | agent/task_agent.py:66 | `lower()`: same length, each letter A-Z replaced by its lower case, nothing else changed, no upper-case letter left |
| Text.Strip | agent/task_agent.py:67 | `strip()`: the result is the input without its leading and trailing whitespace; it is empty exactly when the input is all whitespace, and otherwise starts and ends with a non-space |
| Text.Contains | app.py:138-139 | `needle in hay` holds exactly when the needle occurs at some index of the haystack |
| Text.LowerIdempotent | app.py:138 | lower-casing an already lower-cased string changes nothing |
| Tools.HandlerFor | utils/tools.py:59-67 | the clauses are tried in the order RequestException, ValueError, Exception; each is chosen exactly when the earlier ones do not match |
| Tools.FaultException | utils/tools.py:65-67 | a fault raised by the mapping code (AttributeError, TypeError, IndexError, KeyError) reaches the generic handler with CPython's message |
| Tools.Caught | utils/tools.py:59-67 | a caught exception gives a dictionary whose only key is "error", holding the clause's prefix followed by `str(e)` |
| Tools.SliceEnd | utils/tools.py:47 | `[:n]` keeps `min(n, len)` items for `n >= 0` and `max(0, len + n)` for negative `n` |
| Tools.SliceItems | utils/tools.py:47 | a slice succeeds only on a list or a string, and on a list is the prefix `SliceEnd` gives |
| Tools.GetFrom | utils/tools.py:52-54 | `.get(key)` succeeds exactly on a dict and gives the value, or None when the key is missing |
| Tools.First | utils/tools.py:151 | `[0]` succeeds exactly on a non-empty list or string, and gives a list's first element |
| Tools.SearchRequestFor | utils/tools.py:21-76 | SerpAPI is asked exactly when its key is set, Google exactly when SerpAPI's key is not set and Google's key and engine id both are; SerpAPI is asked for `n` results; Google is asked for `min(n, 10)` |
| Tools.ResultEntry | utils/tools.py:106-116 | a result entry has exactly the keys title, snippet and link, holding the given values |
| Tools.Projection | utils/tools.py:51-55 | a simplified result has exactly the keys title, snippet and link, each the item's value or None |
| Tools.Simplify | utils/tools.py:50-55 | the loop succeeds exactly when every item is a dict, then gives one projection per item in order; otherwise it fails with AttributeError at the first item that is not a dict |
| Tools.BackendReply | utils/tools.py:40-67 | a backend's reply is either entries with exactly title, snippet and link, or a single-key error dictionary |
| Tools.Search | utils/tools.py:21-30 | `search` never raises: it gives entries with exactly title, snippet and link, or a single-key error dictionary, and the error case arises only when a request was sent |
| Tools.SearchSerpApi | utils/tools.py:32-67 | the loop that builds `simplified_results` from the SerpAPI payload gives exactly `SerpApiReply`, whose properties the lemmas below state |
| Tools.SearchGoogle | utils/tools.py:69-102 | the same for the Google payload and `GoogleReply` |
| Tools.SerpApiReply | utils/tools.py:32-67 | a raised exception gives the error dictionary of the first matching clause; a dict payload without "organic_results" gives no entries; a payload that is not a dict fails at `.get` with AttributeError, which the generic clause reports as "An unexpected error occurred: ..." |
| Tools.GoogleReply | utils/tools.py:69-102 | the same for the Google payload and its "items" key |
| Tools.DemoSearchResults | utils/tools.py:104-117 | exactly two entries, each with exactly title, snippet and link; the titles are "Search result for " and "Another result for " followed by the query, with the two fixed snippets and the demo link |
| Tools.WeatherRequestFor | utils/tools.py:128-136 | a request is sent exactly when the key is set, for the given location in metric units |
| Tools.DemoWeather | utils/tools.py:168-177 | the demo weather has exactly the six keys location, temperature, description, humidity, wind_speed and source |
| Tools.StatusMessage | utils/tools.py:144-146 | the message is "Unknown error" without a "message" key, and the string itself when it is one |
| Tools.IsOk | utils/tools.py:144 | `cod != 200` is false exactly for the integer 200 and the float 200.0; a string "200" or a missing code counts as an error |
| Tools.WeatherInfo | utils/tools.py:148-154 | a mapped observation has exactly the five output keys, and its location is the payload's "name" |
| Tools.WeatherFromPayload | utils/tools.py:142-157 | a decoded payload gives either a single-key error dictionary or an observation with the five output keys |
| Tools.GetWeather | utils/tools.py:125-166 | the result has the six demo keys exactly when no key is set; with a key it is an error dictionary or a five-key observation |
| Tools.SerpApiTakesPriority | utils/tools.py:24-25 | with a SerpAPI key set, the search is SerpAPI's reply whatever the Google settings are |
| Tools.DemoSearchWithoutCredentials | utils/tools.py:104-117 | without usable credentials no request is sent; `n` and any request outcome do not matter; the two fixed entries carry the query in their titles and the demo link |
| Tools.BackendKeepsOrder | utils/tools.py:47-58 | for a payload list of dicts and any `n`, the reply has as many entries as `[:n]` keeps, which is `min(n, len)` when `n >= 0`; entry i is the projection of item i |
| Tools.BackendAtMostN | utils/tools.py:47 | for `n >= 0` a backend never returns more than `n` entries |
| Tools.GoogleCapsRequestAndReply | utils/tools.py:69-85 | Google is asked for `min(n, 10)` results, and its reply is cut to `n` as well |
| Tools.SearchExceptionsCaught | utils/tools.py:59-102 | an exception from either search request becomes `{"error": prefix + str(e)}`, with the prefix of the first matching clause of that backend |
| Tools.DemoWeatherWithoutKey | utils/tools.py:128-130 | without a key the demo values (22, "Partly cloudy", 65, 3.5, "demo_data") are returned for the input location, whatever a request would give |
| Tools.WeatherStatusError | utils/tools.py:144-146 | a `cod` other than 200 gives "Error fetching weather: " followed by the message, or by "Unknown error" without one |
| Tools.WeatherObservation | utils/tools.py:148-157 | a successful payload maps name, main.temp, weather[0].description, main.humidity and wind.speed to the five keys; a missing section gives None |
| Tools.WeatherExceptionsCaught | utils/tools.py:158-166 | an exception from the weather request becomes `{"error": prefix + str(e)}` with the prefix of the first matching clause |
| Tools.WeatherEmptyListFault | utils/tools.py:151 | an empty "weather" list raises IndexError, which the generic clause turns into "An unexpected error occurred: list index out of range" |
| TaskAgent.FirstFiller | agent/task_agent.py:66 | the alternatives are tried in pattern order; the one found is followed by whitespace, and no earlier one is |
| TaskAgent.MatchLength | agent/task_agent.py:66 | a match at the front exists exactly when some alternative is followed by whitespace; it covers that word and the whole run of whitespace after it |
| TaskAgent.RemoveFillers | agent/task_agent.py:66 | the substitution never lengthens the text and introduces no character |
| TaskAgent.ExtractLocation | agent/task_agent.py:63-67 | the cleaned location has no upper-case letter, no whitespace at either end, and is no longer than the input |
| TaskAgent.RemoveFillersUnchanged | agent/task_agent.py:66 | the substitution leaves the text as it is exactly when no position starts a match |
| TaskAgent.NoFillerOnlyLowersAndStrips | agent/task_agent.py:63-67 | text without a filler word followed by whitespace is only lower-cased and stripped |
| TaskAgent.AtMostOneFiller | agent/task_agent.py:66 | at most one alternative can match at a position, so the order "forecast" before "for" does not decide anything |
| TaskAgent.ExtractJaipur | agent/task_agent.py:63-67 | "weather in Jaipur" cleans to "jaipur" |
| TaskAgent.ExtractTrailingFillerKept | agent/task_agent.py:66 | a filler word at the very end has no whitespace after it and stays: "weather in" cleans to "in" |
| TaskAgent.TrailingWordKept | agent/task_agent.py:66 | a word without whitespace at the end of the text is never removed, whether or not it is a filler word, and the text before it is cleaned as if the word were absent |
| TaskAgent.ExtractGreedyWhitespace | agent/task_agent.py:66 | the whole whitespace run after a filler word goes: "x in  y" cleans to "x y" |
| TaskAgent.ExtractNoWordBoundaries | agent/task_agent.py:66 | the pattern has no word boundaries: "Berlin at noon" cleans to "berlnoon" |
| TaskAgent.ExtractIsOnePass | agent/task_agent.py:66 | the substitution is a single pass, not a fixed point: "ain t y" cleans to "at y", and cleaning that again gives "y" |
| TaskAgent.WeatherToolFunc | agent/task_agent.py:51-61 | the prompt "Please provide a valid location name." is returned exactly when the cleaned location is empty; otherwise the provider is asked about the cleaned location |
| TaskAgent.OnlyFillersRemoved | agent/task_agent.py:66 | text made only of filler words, each followed by whitespace, is deleted entirely |
| TaskAgent.OnlyFillersAskForLocation | agent/task_agent.py:56-59 | such text cleans to the empty location, so the tool answers with the prompt whatever the key and the provider would give |
| TaskAgent.WeatherInAsksForLocation | agent/task_agent.py:56-59 | "weather in " gets the prompt "Please provide a valid location name." |
| TaskAgent.JsonSpan | agent/task_agent.py:92 | `\{.*\}` with DOTALL matches exactly when a `{` comes before some `}`; the match starts at the first `{` and ends at the last `}` |
| TaskAgent.JsonCandidate | agent/task_agent.py:92-94 | the candidate exists exactly when a `{` precedes a `}`; it is the answer's text from a `{` with no `{` before it through a `}` with no `}` after it, that is, from the first `{` to the last `}` |
| TaskAgent.ExtractPlan | agent/task_agent.py:84-107 | a failed run gives Failed; no candidate gives the raw text; a decodable candidate gives the decoded object; a decode error gives the raw text with an error; any other parser exception gives Failed |
| TaskAgent.PlanDict | agent/task_agent.py:96-107 | the four result dictionaries: the object itself, `{"plan": text}`, `{"plan": text, "error": "JSON parsing failed"}`, and `{"error": "Failed to generate plan: " + message}` |
| TaskAgent.GeneratePlan | agent/task_agent.py:84-107 | for each input: a failed run gives `{"error": "Failed to generate plan: " + message}`; no candidate gives `{"plan": answer}`; a decoded candidate is returned as it is; an undecodable one gives the answer with "JSON parsing failed"; any other parser exception gives the failure dictionary with its message |
| TaskAgent.ErrorKeyIffFailure | agent/task_agent.py:84-107 | the result carries "error" exactly when the run or the parser raised, the candidate did not decode, or the decoded object has that key |
| TaskAgent.EmbeddedObjectIsExtracted | agent/task_agent.py:92-96 | an object with no `{` before it and no `}` after it is the candidate, and a decodable one is returned as the plan |
| TaskAgent.NoBracesGivesRawPlan | agent/task_agent.py:97-100 | an answer with no `{` before a `}` gives exactly `{"plan": answer}`, without "error" |
| TaskAgent.UndecodableKeepsWholeAnswer | agent/task_agent.py:101-103 | an undecodable candidate keeps the whole answer, not the candidate, under "plan" |
| App.InitDatabase | app.py:39-50 | the client is built exactly when the URI, the database name and the collection name are all set and non-empty, and from those three values |
| App.EmptyValueBlocksDatabase | app.py:45-48 | an empty value blocks the client exactly like a missing one |
| App.RenderPathOf | app.py:99-105 | a string under "plan" is written as text; otherwise the days are the dict under "plan" or, without that key, the plan itself; any other value under "plan" has no `.items()` |
| App.RawAnswerShownAsText | app.py:81-101 | an answer without a JSON object passes the error check and is displayed as its own text |
| App.StructuredPlanShownByDay | app.py:102-105 | a decoded plan without a "plan" key is displayed day by day from its own keys |
| App.PlannerPage.constructor | app.py:19-55 | a session starts with no plans and with the database settings the configuration check gives |
| App.PlannerPage.GenerateClicked | app.py:74-119 | an empty goal or a missing database client changes nothing; otherwise the agent is asked once; a result with "error" is shown and neither saved nor added; any other result is passed to `save_plan` once (the log of save attempts grows by exactly that goal and plan pair, whether or not the save raised, and no plan in it has "error") and, when saved, put at the front of the session list as {id, goal, plan, timestamp} with earlier entries unchanged, and displayed by `RenderPathOf`; no plan with "error" ever enters the list |
| App.ValueMatches | app.py:139 | only str and list values can match; a string matches exactly when the query occurs in its lower-cased form, a list exactly when the query occurs in its lower-cased `str()` text |
| App.PlanMatches | app.py:138-139 | a plan matches exactly when its lower-cased goal contains the query or some value of its plan matches by `ValueMatches`; a plan that matches otherwise has some str or list value |
| App.KeepMatching | app.py:136-140 | the comprehension keeps exactly the plans whose goal or some str or list value contains the query, each as often as it occurs in the input, and the result is a subsequence of the input |
| App.FilterPlans | app.py:134-140 | an empty query keeps all plans in order; otherwise a plan is kept exactly when it matches the lower-cased query, each as often as it occurs in the input; the result is always a subsequence |
| App.FilterIdempotent | app.py:134-140 | searching the search result again with the same query changes nothing |
| App.FilterIgnoresQueryCase | app.py:138-139 | a query and its lower-cased form select the same plans |
| App.PastPlansView | app.py:124-142 | without a database an error is shown; with no stored plans a hint is shown; otherwise the count shown is the number of filtered plans, all of them for an empty query |

## Left out

- HTTP requests, `raise_for_status()` and `response.json()` are not modelled. Each provider call takes their outcome as a parameter: the decoded payload, or the exception with its class flags and text.
- The LangChain agent, the language model and the prompt text are not modelled. `agent.run` is an input: its final answer, or the message of the exception it raised.
- `json.loads` is not modelled; it is a parse oracle passed in as a function. Python's `str()` of non-string values is a `render` function parameter; it is used for status messages and for list values in the plan search.
- Tools.Search: the demo path returns its two entries whatever `num_results` is, as the source does. The contract's entry-count bound is proved only for the two backends (`BackendAtMostN`).
- TaskAgent.WeatherToolFunc: returns the provider's dictionary, not the `str()` text of it that the source gives to the agent. Python's dict rendering is not modelled.
- utils/database.py is not part of this model. `save_plan` is an external call whose outcome (an id, or an exception) is an input. `get_all_plans` is the input sequence of stored plans. The `MongoDBClient(...)` construction at app.py:50 and the delete button at app.py:166-168 are left out. That module's constructor takes no arguments, and it has no `delete_plan`, so no behaviour of those two calls can be stated.
- App.PlannerPage.GenerateClicked: `datetime.now()` is an integer input; the timestamp format of the past-plans page is not modelled.
- The per-day markdown loops (app.py:105-115, 150-164) and all widgets, layout, caching and `st.rerun` are not modelled. Only the choice of display path is.
- Character handling is ASCII: `lower()` folds only A-Z, and whitespace is the ASCII part of Python's `str.isspace()`. Unicode case folding and Unicode whitespace are not modelled.
- Logging, `load_dotenv` and reading environment variables are not modelled; the environment values are inputs (`Option<string>`).
- Fault messages follow CPython 3.11. From 3.12 on, slicing a dict raises KeyError with the slice as its text instead of "unhashable type: 'slice'"; both reach the generic handler.
