/** The search header's event handlers, as the actions each one dispatches,
    and the effect that starts a fetch when the query, the sort order or the
    filter changes. */
module Header {
  import opened BookReducer
  import opened Thunks

  const EmptyQueryMessage := "Введите данные для поиска"

  /** The search button: an info message when the pending text is empty,
      and then the text is committed as the query in every case. */
  function SendHandler(qValue: string): (ev: seq<Action>)
    ensures |ev| >= 1 && ev[|ev| - 1] == SetQValue(qValue)
    ensures AppInfo(EmptyQueryMessage) in ev <==> qValue == ""
    ensures forall i :: 0 <= i < |ev| - 1 ==> ev[i].AppInfo?
    ensures |ev| == (if qValue == "" then 2 else 1)
  {
    (if qValue == "" then [AppInfo(EmptyQueryMessage)] else []) + [SetQValue(qValue)]
  }

  /** A key press in the input commits the pending text on Enter only. */
  function KeyPressHandler(key: string, qValue: string): (ev: seq<Action>)
    ensures |ev| == (if key == "Enter" then 1 else 0)
    ensures forall i :: 0 <= i < |ev| ==> ev[i] == SetQValue(qValue)
  {
    if key == "Enter" then [SetQValue(qValue)] else []
  }

  /** The sort selector: an info message, then the new sort order. */
  function ChangeSortHandler(value: string): (ev: seq<Action>)
    ensures |ev| == 2 && ev[0].AppInfo? && ev[1] == SetOrderBy(value)
  {
    [AppInfo("Sorting by " + value), SetOrderBy(value)]
  }

  /** The category selector: an info message, then the chosen category is
      written into the filter (not into the categories field). */
  function ChangeCategoryHandler(value: string): (ev: seq<Action>)
    ensures |ev| == 2 && ev[0].AppInfo? && ev[1] == SetFilter(value)
  {
    [AppInfo("Filtered by " + value), SetFilter(value)]
  }

  /** The effect runs a fetch after a render in which the query, the sort
      order or the filter changed, provided the query is not empty. */
  function EffectFetches(prev: BooksState, cur: BooksState): (fires: bool)
    ensures cur.q == "" ==> !fires
    ensures RequestOf(prev) == RequestOf(cur) && prev.filter == cur.filter ==> !fires
    ensures cur.q != "" && (RequestOf(prev) != RequestOf(cur) || prev.filter != cur.filter) ==> fires
  {
    (prev.q != cur.q || prev.orderBy != cur.orderBy || prev.filter != cur.filter) && cur.q != ""
  }

  /** The search button commits its text, empty or not, and changes nothing
      else; an empty text therefore clears the query, starts no fetch, and
      leaves the last results on show. */
  lemma SendCommitsQuery(s: BooksState, qValue: string)
    ensures Replay(s, SendHandler(qValue)) == s.(q := qValue)
    ensures qValue == "" ==> !EffectFetches(s, Replay(s, SendHandler(qValue)))
  {
    var ev := SendHandler(qValue);
    var n := |ev|;
    assert ev == ev[..n - 1] + [SetQValue(qValue)];
    ReplayAppend(s, ev[..n - 1], [SetQValue(qValue)]);
    ReplayInert(s, ev[..n - 1]);
  }

  /** Enter commits the pending text as the query and changes nothing else;
      any other key leaves the state as it was. */
  lemma KeyPressCommitsQuery(s: BooksState, key: string, qValue: string)
    ensures Replay(s, KeyPressHandler(key, qValue)) == if key == "Enter" then s.(q := qValue) else s
  {
  }

  /** A fetch's own results do not start another fetch: a run keeps the
      query, the sort order and the filter, so the effect stays silent. */
  lemma FetchDoesNotRetrigger(s: BooksState, api: Query -> Outcome)
    ensures !EffectFetches(s, Replay(s, FetchEvents(s, api)))
  {
    FetchKeepsQueryFields(s, api, Q);
    FetchKeepsQueryFields(s, api, OrderBy);
    FetchKeepsQueryFields(s, api, Filter);
  }

  /** Choosing a category changes the filter only; the request a fetch then
      sends is the one it would have sent before, so the category has no
      effect on the results. */
  lemma CategoryChangeKeepsRequest(s: BooksState, value: string, api: Query -> Outcome)
    ensures Replay(s, ChangeCategoryHandler(value)) == s.(filter := value)
    ensures RequestOf(Replay(s, ChangeCategoryHandler(value))) == RequestOf(s)
    ensures FetchEvents(Replay(s, ChangeCategoryHandler(value)), api) == FetchEvents(s, api)
    ensures s.q != "" && value != s.filter ==> EffectFetches(s, Replay(s, ChangeCategoryHandler(value)))
  {
    var ev := ChangeCategoryHandler(value);
    ReplayAppend(s, [ev[0]], [ev[1]]);
    assert ev == [ev[0]] + [ev[1]];
    FetchDependsOnlyOnRequest(Replay(s, ev), s, api);
  }

  /** Choosing a sort order changes only the sort order, and the next
      request carries it. */
  lemma SortChangeSetsOrder(s: BooksState, value: string)
    ensures Replay(s, ChangeSortHandler(value)) == s.(orderBy := value)
    ensures RequestOf(Replay(s, ChangeSortHandler(value))) == Query(s.q, value)
  {
    var ev := ChangeSortHandler(value);
    ReplayAppend(s, [ev[0]], [ev[1]]);
    assert ev == [ev[0]] + [ev[1]];
  }
}
