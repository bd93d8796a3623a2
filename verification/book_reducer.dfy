/** The books slice of the store: its state, the actions the books reducer
    sees, the reducer itself, and the fold of the reducer over a sequence of
    dispatched actions. */
module BookReducer {

  datatype Option<T> = None | Some(value: T)

  /** Cover-image links of a volume; each size may be missing. */
  datatype ImageLinks = ImageLinks(
    smallThumbnail: Option<string>,
    thumbnail: Option<string>,
    medium: Option<string>,
    large: Option<string>)

  datatype VolumeInfo = VolumeInfo(
    authors: seq<string>,
    categories: seq<string>,
    imageLinks: ImageLinks,
    title: Option<string>)

  /** One book of a result list, in the order the search service returned it. */
  datatype Item = Item(id: string, volumeInfo: VolumeInfo)

  /** The whole books slice. Every field is a plain value; the reducer never
      changes a state, it builds the next one. */
  datatype BooksState = BooksState(
    kind: string,
    totalItems: int,
    items: seq<Item>,
    q: string,
    key: string,
    filter: string,
    orderBy: string,
    categories: string)

  /** The body of a successful search response. A key the response does not
      carry is None: object spread copies only the keys that are present. */
  datatype BookResponse = BookResponse(
    kind: Option<string>,
    totalItems: Option<int>,
    items: Option<seq<Item>>)

  /** Every action that reaches the books reducer. The first five are the
      books actions; the rest are dispatched by the fetch thunk to other
      slices of the store and fall through the books reducer's switch. */
  datatype Action =
    | SetBooks(payload: BookResponse)
    | SetQValue(q: string)
    | SetFilter(filter: string)
    | SetOrderBy(orderBy: string)
    | SetCategories(categories: string)
    | AppIsLoading(isLoading: bool)
    | AppInfo(info: string)
    | HandleError(error: string)
    | Other(tag: string)

  /** The placeholder state the store starts from: no query, the default
      filter and sort order, and one empty placeholder book. */
  function InitialState(): (s: BooksState)
    ensures s.q == "" && s.filter == "full" && s.orderBy == "relevance" && s.categories == "all"
    ensures s.totalItems == 0 && |s.items| == 1
    ensures s.items[0].id == "1" && s.items[0].volumeInfo.authors == []
  {
    var noLinks := ImageLinks(Some(""), Some(""), Some(""), Some(""));
    BooksState(
      kind := "some",
      totalItems := 0,
      items := [Item("1", VolumeInfo([], [], noLinks, Some("")))],
      q := "",
      key := "API_KEY",
      filter := "full",
      orderBy := "relevance",
      categories := "all")
  }

  // ---------------------------------------------------------------------
  // A field-wise view of the state, used to state what an action changes

  datatype Field = Kind | TotalItems | Items | Q | Key | Filter | OrderBy | Categories

  datatype FieldValue = Text(text: string) | Count(count: int) | Volumes(volumes: seq<Item>)

  function Get(s: BooksState, f: Field): FieldValue
  {
    match f
    case Kind => Text(s.kind)
    case TotalItems => Count(s.totalItems)
    case Items => Volumes(s.items)
    case Q => Text(s.q)
    case Key => Text(s.key)
    case Filter => Text(s.filter)
    case OrderBy => Text(s.orderBy)
    case Categories => Text(s.categories)
  }

  /** Two states that agree on every field are the same state. */
  lemma StateExtensionality(s: BooksState, t: BooksState)
    requires forall f :: Get(s, f) == Get(t, f)
    ensures s == t
  {
    assert Get(s, Kind) == Get(t, Kind) && Get(s, TotalItems) == Get(t, TotalItems);
    assert Get(s, Items) == Get(t, Items) && Get(s, Q) == Get(t, Q);
    assert Get(s, Key) == Get(t, Key) && Get(s, Filter) == Get(t, Filter);
    assert Get(s, OrderBy) == Get(t, OrderBy) && Get(s, Categories) == Get(t, Categories);
  }

  /** The fields an action is meant to write: the setter's own field, the keys
      a search response carries, and nothing for any other action. */
  function Writes(a: Action): set<Field>
  {
    match a
    case SetBooks(p) =>
      (if p.kind.Some? then {Kind} else {})
      + (if p.totalItems.Some? then {TotalItems} else {})
      + (if p.items.Some? then {Items} else {})
    case SetQValue(_) => {Q}
    case SetFilter(_) => {Filter}
    case SetOrderBy(_) => {OrderBy}
    case _ => {}
  }

  /** The value an action writes into a field it writes. */
  function Written(a: Action, f: Field): FieldValue
    requires f in Writes(a)
  {
    match a
    case SetBooks(p) =>
      (match f
       case Kind => Text(p.kind.value)
       case TotalItems => Count(p.totalItems.value)
       case Items => Volumes(p.items.value))
    case SetQValue(v) => Text(v)
    case SetFilter(v) => Text(v)
    case SetOrderBy(v) => Text(v)
  }

  /** An action the reducer leaves without effect. */
  predicate Inert(a: Action)
  {
    Writes(a) == {}
  }

  // ---------------------------------------------------------------------
  // The reducer

  /** The books reducer: a search response is spread over the state, each
      setter replaces its one field, and every other action (the declared
      but unhandled SetCategories among them) returns the state as it was. */
  function Reduce(s: BooksState, a: Action): (r: BooksState)
    ensures forall f :: Get(r, f) == if f in Writes(a) then Written(a, f) else Get(s, f)
    ensures Inert(a) ==> r == s
  {
    match a
    case SetBooks(p) =>
      s.(kind := if p.kind.Some? then p.kind.value else s.kind,
         totalItems := if p.totalItems.Some? then p.totalItems.value else s.totalItems,
         items := if p.items.Some? then p.items.value else s.items)
    case SetQValue(v) => s.(q := v)
    case SetFilter(v) => s.(filter := v)
    case SetOrderBy(v) => s.(orderBy := v)
    case _ => s
  }

  /** A later action that writes every field an earlier one wrote hides the
      earlier one; in particular every action is idempotent. */
  lemma LastWriteWins(s: BooksState, a: Action, b: Action)
    requires Writes(a) <= Writes(b)
    ensures Reduce(Reduce(s, a), b) == Reduce(s, b)
  {
    StateExtensionality(Reduce(Reduce(s, a), b), Reduce(s, b));
  }

  lemma Idempotent(s: BooksState, a: Action)
    ensures Reduce(Reduce(s, a), a) == Reduce(s, a)
  {
    LastWriteWins(s, a, a);
  }

  /** Actions that write disjoint fields may be dispatched in either order. */
  lemma DisjointActionsCommute(s: BooksState, a: Action, b: Action)
    requires Writes(a) !! Writes(b)
    ensures Reduce(Reduce(s, a), b) == Reduce(Reduce(s, b), a)
  {
    StateExtensionality(Reduce(Reduce(s, a), b), Reduce(Reduce(s, b), a));
  }

  // ---------------------------------------------------------------------
  // Dispatching a sequence of actions, in order

  function Replay(s: BooksState, events: seq<Action>): BooksState
    decreases events
  {
    if events == [] then s else Replay(Reduce(s, events[0]), events[1..])
  }

  lemma {:induction false} ReplayAppend(s: BooksState, xs: seq<Action>, ys: seq<Action>)
    ensures Replay(s, xs + ys) == Replay(Replay(s, xs), ys)
    decreases xs
  {
    if xs != [] {
      assert (xs + ys)[0] == xs[0] && (xs + ys)[1..] == xs[1..] + ys;
      ReplayAppend(Reduce(s, xs[0]), xs[1..], ys);
    } else {
      assert xs + ys == ys;
    }
  }

  /** A field that no action of a sequence writes keeps its value. */
  lemma {:induction false} ReplayFrame(s: BooksState, events: seq<Action>, f: Field)
    requires forall i :: 0 <= i < |events| ==> f !in Writes(events[i])
    ensures Get(Replay(s, events), f) == Get(s, f)
    decreases events
  {
    if events != [] {
      ReplayFrame(Reduce(s, events[0]), events[1..], f);
    }
  }

  /** A sequence of inert actions leaves the state as it was. */
  lemma {:induction false} ReplayInert(s: BooksState, events: seq<Action>)
    requires forall i :: 0 <= i < |events| ==> Inert(events[i])
    ensures Replay(s, events) == s
    decreases events
  {
    if events != [] {
      ReplayInert(Reduce(s, events[0]), events[1..]);
    }
  }
}
