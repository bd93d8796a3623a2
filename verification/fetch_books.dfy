/** The fetchBooks thunk: the actions it dispatches, in order, for each
    outcome of the search request, and the store it dispatches them to. */
module Thunks {
  import opened BookReducer

  /** The query parameters sent to the search service. */
  datatype Query = Query(q: string, orderBy: string)

  /** What the awaited search request settles to: a response body, or the
      exception the catch block receives. */
  datatype Outcome = Success(response: BookResponse) | Failure(error: string)

  const NotFoundMessage := "not found anything"

  /** The request is built from the query text and the sort order alone. */
  function RequestOf(s: BooksState): (req: Query)
    ensures req.q == s.q && req.orderBy == s.orderBy
  {
    Query(s.q, s.orderBy)
  }

  /** `!response.data.totalItems`: the count is missing or zero. */
  function NothingFound(r: BookResponse): (falsy: bool)
    ensures falsy <==> r.totalItems == None || r.totalItems == Some(0)
  {
    r.totalItems.None? || r.totalItems.value == 0
  }

  /** The actions one run of the thunk dispatches, given the state it reads
      at the start and the search service `api`: loading on; on success the
      "not found" info when the count is falsy, then the response; on failure
      whatever the error handler dispatches; and loading off on every path. */
  function FetchEvents(s: BooksState, api: Query -> Outcome): (ev: seq<Action>)
    ensures |ev| >= 3
    ensures ev[0] == AppIsLoading(true) && ev[|ev| - 1] == AppIsLoading(false)
    ensures forall i :: 0 < i < |ev| - 1 ==> !ev[i].AppIsLoading?
    ensures forall i :: 0 <= i < |ev| ==> ev[i].SetBooks? || Inert(ev[i])
    ensures var o := api(RequestOf(s));
      forall i :: 0 <= i < |ev| ==> (ev[i].SetBooks? <==> o.Success? && i == |ev| - 2)
    ensures var o := api(RequestOf(s));
      o.Success? ==> ev[|ev| - 2] == SetBooks(o.response)
    ensures var o := api(RequestOf(s));
      AppInfo(NotFoundMessage) in ev <==> o.Success? && NothingFound(o.response)
    ensures AppInfo(NotFoundMessage) in ev ==> ev[1] == AppInfo(NotFoundMessage) && |ev| == 4
    ensures var o := api(RequestOf(s));
      |ev| == (if o.Success? && NothingFound(o.response) then 4 else 3)
    ensures var o := api(RequestOf(s));
      o.Failure? ==> ev[1] == HandleError(o.error)
  {
    var settle :=
      match api(RequestOf(s))
      case Success(r) => (if NothingFound(r) then [AppInfo(NotFoundMessage)] else []) + [SetBooks(r)]
      case Failure(e) => [HandleError(e)];
    [AppIsLoading(true)] + settle + [AppIsLoading(false)]
  }

  /** Two states with the same query text and sort order give the same run:
      the filter, the categories, the key and the current results are not
      part of the request. */
  lemma FetchDependsOnlyOnRequest(s: BooksState, t: BooksState, api: Query -> Outcome)
    requires s.q == t.q && s.orderBy == t.orderBy
    ensures FetchEvents(s, api) == FetchEvents(t, api)
  {
  }

  /** A failed request leaves the books slice exactly as it was: the previous
      results stay. */
  lemma FetchFailureKeepsBooks(s: BooksState, api: Query -> Outcome)
    requires api(RequestOf(s)).Failure?
    ensures Replay(s, FetchEvents(s, api)) == s
  {
    ReplayInert(s, FetchEvents(s, api));
  }

  /** A successful request has the effect of the one SetBooks action: the
      response's keys are spread over the state, and the items stay as they
      were when the response carries none. */
  lemma FetchSuccessAppliesResponse(s: BooksState, api: Query -> Outcome)
    requires api(RequestOf(s)).Success?
    ensures var r := api(RequestOf(s)).response;
      Replay(s, FetchEvents(s, api)) == Reduce(s, SetBooks(r))
    ensures var r, t := api(RequestOf(s)).response, Replay(s, FetchEvents(s, api));
      t.items == (if r.items.Some? then r.items.value else s.items)
      && t.totalItems == (if r.totalItems.Some? then r.totalItems.value else s.totalItems)
  {
    var r := api(RequestOf(s)).response;
    var ev := FetchEvents(s, api);
    var n := |ev|;
    var before, after := ev[..n - 2], ev[n - 1..];
    assert ev == before + [SetBooks(r)] + after;
    ReplayInert(s, before);
    ReplayAppend(s, before + [SetBooks(r)], after);
    ReplayAppend(s, before, [SetBooks(r)]);
    ReplayInert(Reduce(s, SetBooks(r)), after);
    assert Get(Reduce(s, SetBooks(r)), Items) == if Items in Writes(SetBooks(r)) then Written(SetBooks(r), Items) else Get(s, Items);
    assert Get(Reduce(s, SetBooks(r)), TotalItems) == if TotalItems in Writes(SetBooks(r)) then Written(SetBooks(r), TotalItems) else Get(s, TotalItems);
  }

  /** Whatever the outcome, a run changes nothing but the fields a search
      response carries: the query, key, filter, sort order and categories
      are kept. */
  lemma FetchKeepsQueryFields(s: BooksState, api: Query -> Outcome, f: Field)
    requires f !in {Kind, TotalItems, Items}
    ensures Get(Replay(s, FetchEvents(s, api)), f) == Get(s, f)
  {
    var ev := FetchEvents(s, api);
    forall i | 0 <= i < |ev|
      ensures f !in Writes(ev[i])
    {
      if ev[i].SetBooks? {
        assert Writes(ev[i]) <= {Kind, TotalItems, Items};
      }
    }
    ReplayFrame(s, ev, f);
  }

  /** The Redux store as the thunk sees it: the books slice it holds, and the
      actions dispatched to it so far. */
  class Store {
    var books: BooksState
    ghost var dispatched: seq<Action>

    /** The store starts from the reducer's default state. */
    constructor ()
      ensures books == InitialState() && dispatched == []
    {
      books := InitialState();
      dispatched := [];
    }

    method Dispatch(a: Action)
      modifies this
      ensures books == Reduce(old(books), a)
      ensures dispatched == old(dispatched) + [a]
    {
      books := Reduce(books, a);
      dispatched := dispatched + [a];
    }

    /** One run of the thunk against the search service `api`. It returns
        the request it sent. */
    method FetchBooks(api: Query -> Outcome) returns (request: Query)
      modifies this
      ensures request.q == old(books).q && request.orderBy == old(books).orderBy
      ensures dispatched == old(dispatched) + FetchEvents(old(books), api)
      ensures books == Replay(old(books), FetchEvents(old(books), api))
    {
      var snapshot := books;
      ghost var before := dispatched;
      ghost var sent := [AppIsLoading(true)];
      Dispatch(AppIsLoading(true));
      request := Query(snapshot.q, snapshot.orderBy);
      var outcome := api(request);
      match outcome {
        case Success(response) =>
          if NothingFound(response) {
            Dispatch(AppInfo(NotFoundMessage));
            ReplayAppend(snapshot, sent, [AppInfo(NotFoundMessage)]);
            sent := sent + [AppInfo(NotFoundMessage)];
          }
          Dispatch(SetBooks(response));
          ReplayAppend(snapshot, sent, [SetBooks(response)]);
          sent := sent + [SetBooks(response)];
        case Failure(e) =>
          Dispatch(HandleError(e));
          ReplayAppend(snapshot, sent, [HandleError(e)]);
          sent := sent + [HandleError(e)];
      }
      Dispatch(AppIsLoading(false));
      ReplayAppend(snapshot, sent, [AppIsLoading(false)]);
      sent := sent + [AppIsLoading(false)];
      assert sent == FetchEvents(snapshot, api);
      assert dispatched == before + sent;
    }
  }
}
