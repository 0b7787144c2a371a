/** The decisions the Streamlit page (app.py) makes around the agent: the
    database configuration check, the "Generate Plan" gate with its update of
    the session's plan list, the choice between the raw-text and the
    day-by-day display, and the search over past plans.

    Widgets, layout and the per-day markdown are not modelled; neither is the
    MongoDB client. Saving a plan is an external call whose outcome is an
    input, and the clock is an input too. */
module App {
  import opened Basics
  import opened Text
  import opened JsonValue
  import opened TaskAgent

  // ---------------------------------------------------------------------
  // init_database

  /** The three values the database client is built from. */
  datatype DbSettings = DbSettings(uri: string, dbName: string, collection: string)

  /** The configuration check of `init_database`: the client is built only
      when the URI, the database name and the collection name are all set
      and non-empty. */
  function InitDatabase(uri: Option<string>, dbName: Option<string>, collection: Option<string>): (r: Option<DbSettings>)
    ensures r.Some? <==> IsSet(uri) && IsSet(dbName) && IsSet(collection)
    ensures r.Some? ==> r.value.uri == uri.value && r.value.dbName == dbName.value
                        && r.value.collection == collection.value
    ensures r.Some? ==> r.value.uri != "" && r.value.dbName != "" && r.value.collection != ""
  {
    if IsSet(uri) && IsSet(dbName) && IsSet(collection) then
      Some(DbSettings(uri.value, dbName.value, collection.value))
    else None
  }

  /** An empty value counts as missing, exactly like an unset one. */
  lemma EmptyValueBlocksDatabase(uri: Option<string>, dbName: Option<string>, collection: Option<string>)
    requires uri == Some("") || dbName == Some("") || collection == Some("")
    ensures InitDatabase(uri, dbName, collection) == None
  {
  }

  // ---------------------------------------------------------------------
  // Display of a freshly generated plan

  /** Which display the page chooses for a plan dictionary. `NoItems` is the
      `AttributeError` raised when the value under "plan" is neither a string
      nor a dictionary, so `.items()` does not exist. */
  datatype RenderPath =
    | RawText(text: string)
    | DayByDay(days: Dict)
    | NoItems(typeName: string)

  /** A string under "plan" is written as it is; otherwise the days are the
      dictionary under "plan" or, without that key, the plan itself. */
  function RenderPathOf(plan: Dict): (p: RenderPath)
    ensures p.RawText? <==> "plan" in plan && plan["plan"].JStr?
    ensures p.RawText? ==> plan["plan"] == JStr(p.text)
    ensures "plan" !in plan ==> p == DayByDay(plan)
    ensures "plan" in plan && plan["plan"].JObj? ==> p == DayByDay(plan["plan"].fields)
    ensures p.NoItems? <==> "plan" in plan && !plan["plan"].JStr? && !plan["plan"].JObj?
    ensures p.NoItems? ==> p.typeName == TypeName(plan["plan"]) && p.typeName != "str" && p.typeName != "dict"
  {
    if "plan" !in plan then DayByDay(plan)
    else
      match plan["plan"]
      case JStr(text) => RawText(text)
      case JObj(days) => DayByDay(days)
      case other => NoItems(TypeName(other))
  }

  /** An answer without a JSON object is shown as the answer's text. */
  lemma RawAnswerShownAsText(run: AgentRun, parse: string -> ParseOutcome)
    requires ExtractPlan(run, parse).Raw?
    ensures "error" !in GeneratePlan(run, parse)
    ensures RenderPathOf(GeneratePlan(run, parse)) == RawText(run.text)
  {
  }

  /** A decoded object without a "plan" key is shown day by day from its own
      keys. */
  lemma StructuredPlanShownByDay(run: AgentRun, parse: string -> ParseOutcome)
    requires ExtractPlan(run, parse).Structured?
    requires "plan" !in ExtractPlan(run, parse).obj
    ensures RenderPathOf(GeneratePlan(run, parse)) == DayByDay(ExtractPlan(run, parse).obj)
  {
  }

  // ---------------------------------------------------------------------
  // The "Generate Plan" button

  /** `save_plan(goal, plan)`: the id it returns, or the exception it raises. */
  datatype SaveOutcome = SavedAs(id: string) | SaveRaised(message: string)

  /** An entry of `st.session_state.plans`. */
  datatype SessionPlan = SessionPlan(id: string, goal: string, plan: Dict, timestamp: int)

  /** What one click of the button puts on the page. */
  datatype GenerateResult =
    | AskedForGoal(warning: string)       // st.warning, the goal is empty
    | NoDatabase(error: string)           // st.error, no database client
    | ShowedError(shown: Json)           // st.error(plan["error"])
    | SaveFailed(message: string)         // save_plan raised; the script stops
    | ShowedPlan(id: string, path: RenderPath)

  const GoalWarning := "Please enter a goal first."
  const NoDatabaseError := "Cannot generate plan: Database client not available."

  /** The session of one browser tab: the plans generated in it, newest
      first, and the database settings fixed when the session started. The
      ghost fields record the calls the page makes to the agent and to the
      store, in order. */
  class PlannerPage {
    var plans: seq<SessionPlan>
    const db: Option<DbSettings>
    ghost var agentGoals: seq<string>
    ghost var saveAttempts: seq<(string, Dict)>

    /** No plan carrying an "error" key ever reaches the store or the
        session list. */
    ghost predicate Valid()
      reads this
    {
      && (forall i :: 0 <= i < |plans| ==> "error" !in plans[i].plan)
      && (forall i :: 0 <= i < |saveAttempts| ==> "error" !in saveAttempts[i].1)
    }

    constructor (uri: Option<string>, dbName: Option<string>, collection: Option<string>)
      ensures db == InitDatabase(uri, dbName, collection)
      ensures plans == [] && agentGoals == [] && saveAttempts == []
      ensures Valid()
    {
      plans := [];
      db := InitDatabase(uri, dbName, collection);
      agentGoals := [];
      saveAttempts := [];
    }

    /** One click of "Generate Plan" with the text area holding `goal`. The
        agent's run, the JSON parser, the store's answer and the clock are
        inputs. */
    method GenerateClicked(goal: string, run: AgentRun, parse: string -> ParseOutcome, save: SaveOutcome, now: int)
      returns (result: GenerateResult)
      requires Valid()
      modifies this
      ensures Valid()
      ensures goal == [] ==> result == AskedForGoal(GoalWarning) && unchanged(this)
      ensures goal != [] && db.None? ==> result == NoDatabase(NoDatabaseError) && unchanged(this)
      ensures goal != [] && db.Some? ==> agentGoals == old(agentGoals) + [goal]
      ensures goal != [] && db.Some? && "error" in GeneratePlan(run, parse) ==>
        result == ShowedError(GeneratePlan(run, parse)["error"])
        && plans == old(plans) && saveAttempts == old(saveAttempts)
      ensures goal != [] && db.Some? && "error" !in GeneratePlan(run, parse) ==>
        saveAttempts == old(saveAttempts) + [(goal, GeneratePlan(run, parse))]
      ensures goal != [] && db.Some? && "error" !in GeneratePlan(run, parse) && save.SaveRaised? ==>
        result == SaveFailed(save.message) && plans == old(plans)
      ensures goal != [] && db.Some? && "error" !in GeneratePlan(run, parse) && save.SavedAs? ==>
        result == ShowedPlan(save.id, RenderPathOf(GeneratePlan(run, parse)))
        && plans == [SessionPlan(save.id, goal, GeneratePlan(run, parse), now)] + old(plans)
    {
      if goal == [] {
        return AskedForGoal(GoalWarning);
      }
      if db.None? {
        return NoDatabase(NoDatabaseError);
      }
      agentGoals := agentGoals + [goal];
      var plan := GeneratePlan(run, parse);
      if "error" in plan {
        return ShowedError(plan["error"]);
      }
      saveAttempts := saveAttempts + [(goal, plan)];
      match save
      case SaveRaised(message) =>
        result := SaveFailed(message);
      case SavedAs(id) =>
        plans := [SessionPlan(id, goal, plan, now)] + plans;
        result := ShowedPlan(id, RenderPathOf(plan));
    }
  }

  // ---------------------------------------------------------------------
  // "View Past Plans": the search filter

  /** A plan document as the store returns it. */
  datatype StoredPlan = StoredPlan(id: string, goal: string, plan: Dict, timestamp: int)

  /** `q in str(v).lower()` for a value the filter looks at: strings as they
      are, lists through Python's `str()` (the `render` parameter); any other
      value is skipped. `q` is already lower-cased. */
  predicate ValueMatches(q: string, v: Json, render: Json -> string): (b: bool)
    ensures b ==> v.JStr? || v.JList?
    ensures v.JStr? ==> (b <==> exists i :: OccursAt(Lower(v.s), q, i))
    ensures v.JList? ==> (b <==> exists i :: OccursAt(Lower(render(v)), q, i))
  {
    match v
    case JStr(s) => Contains(Lower(s), q)
    case JList(_) => Contains(Lower(render(v)), q)
    case _ => false
  }

  /** The comprehension's condition for one plan. */
  predicate PlanMatches(q: string, p: StoredPlan, render: Json -> string): (b: bool)
    ensures (exists i :: OccursAt(Lower(p.goal), q, i)) ==> b
    ensures b <==> ((exists i :: OccursAt(Lower(p.goal), q, i)) ||
      exists k :: k in p.plan && ValueMatches(q, p.plan[k], render))
    ensures b && !Contains(Lower(p.goal), q) ==>
      exists k :: k in p.plan && (p.plan[k].JStr? || p.plan[k].JList?)
  {
    Contains(Lower(p.goal), q) || exists k :: k in p.plan && ValueMatches(q, p.plan[k], render)
  }

  /** `a` is `b` with some elements left out. */
  ghost predicate IsSubsequence<T>(a: seq<T>, b: seq<T>)
    decreases |b|
  {
    a == [] || (b != [] && (IsSubsequence(a, b[1..]) || (a[0] == b[0] && IsSubsequence(a[1..], b[1..]))))
  }

  /** The list comprehension over `plans` with the lower-cased query `q`. */
  function KeepMatching(plans: seq<StoredPlan>, q: string, render: Json -> string): (r: seq<StoredPlan>)
    ensures |r| <= |plans|
    ensures forall p :: p in r <==> p in plans && PlanMatches(q, p, render)
    ensures IsSubsequence(r, plans)
    ensures forall x :: multiset(r)[x] == if PlanMatches(q, x, render) then multiset(plans)[x] else 0
  {
    if plans == [] then []
    else
      var rest := KeepMatching(plans[1..], q, render);
      assert plans == [plans[0]] + plans[1..];
      if PlanMatches(q, plans[0], render) then [plans[0]] + rest
      else rest
  }

  /** The search over past plans: an empty query keeps every plan; otherwise
      a plan stays when the query, ignoring case, occurs in its goal or in one
      of its string or list values. The order is kept. */
  function FilterPlans(plans: seq<StoredPlan>, query: string, render: Json -> string): (r: seq<StoredPlan>)
    ensures query == [] ==> r == plans
    ensures query != [] ==> forall p :: p in r <==> p in plans && PlanMatches(Lower(query), p, render)
    ensures query != [] ==>
      forall x :: multiset(r)[x] == if PlanMatches(Lower(query), x, render) then multiset(plans)[x] else 0
    ensures IsSubsequence(r, plans)
  {
    if query == [] then
      IsSubsequenceOfSelf(plans);
      plans
    else KeepMatching(plans, Lower(query), render)
  }

  lemma {:induction false} IsSubsequenceOfSelf<T>(s: seq<T>)
    ensures IsSubsequence(s, s)
    decreases |s|
  {
    if s != [] {
      IsSubsequenceOfSelf(s[1..]);
    }
  }

  /** Searching the result of a search again with the same query changes
      nothing. */
  lemma {:induction false} KeepMatchingIdempotent(plans: seq<StoredPlan>, q: string, render: Json -> string)
    ensures KeepMatching(KeepMatching(plans, q, render), q, render) == KeepMatching(plans, q, render)
    decreases |plans|
  {
    if plans != [] {
      KeepMatchingIdempotent(plans[1..], q, render);
      var rest := KeepMatching(plans[1..], q, render);
      if PlanMatches(q, plans[0], render) {
        assert ([plans[0]] + rest)[1..] == rest;
      }
    }
  }

  lemma FilterIdempotent(plans: seq<StoredPlan>, query: string, render: Json -> string)
    ensures FilterPlans(FilterPlans(plans, query, render), query, render) == FilterPlans(plans, query, render)
  {
    if query != [] {
      KeepMatchingIdempotent(plans, Lower(query), render);
    }
  }

  /** The case of the query does not matter. */
  lemma FilterIgnoresQueryCase(plans: seq<StoredPlan>, query: string, render: Json -> string)
    ensures FilterPlans(plans, Lower(query), render) == FilterPlans(plans, query, render)
  {
    LowerIdempotent(query);
  }

  /** What the "View Past Plans" page shows before listing the plans. */
  datatype PastPlansScreen =
    | DatabaseUnavailable                           // st.error
    | NoPlansYet                                    // st.info
    | Found(count: nat, shown: seq<StoredPlan>)     // "Found {count} plan(s)"

  /** The past-plans page: the store's plans are filtered by the query, the
      count shown is the number of plans listed. */
  function PastPlansView(db: Option<DbSettings>, stored: seq<StoredPlan>, query: string, render: Json -> string): (v: PastPlansScreen)
    ensures db.None? <==> v.DatabaseUnavailable?
    ensures v.NoPlansYet? <==> db.Some? && stored == []
    ensures v.Found? ==> v.count == |v.shown| && v.shown == FilterPlans(stored, query, render)
    ensures v.Found? && query == [] ==> v.count == |stored|
  {
    if db.None? then DatabaseUnavailable
    else if stored == [] then NoPlansYet
    else
      var shown := FilterPlans(stored, query, render);
      Found(|shown|, shown)
  }
}
