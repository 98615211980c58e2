/**
 * The search and "load more" view over an item list: a case-insensitive substring filter over
 * a fixed list of keys, driven by a debounced copy of the search term, and a prefix of
 * `currentPage * ItemsPerPage` of the filtered items.
 */
module FilterAndPagination {
  import opened Wrappers
  import opened Strings
  import opened JsValues
  import opened Sequences

  /** `itemsPerPage` starts at 5 and nothing changes it. */
  const ItemsPerPage: nat := 5

  /** `String(v).toLowerCase().includes(lowerTerm)` */
  predicate FieldMatches(v: Value, lowerTerm: string) {
    Contains(Lower(Display(v)), lowerTerm)
  }

  /**
   * `searchKeys.some(...)`: some key holds a value that is neither `undefined` (absent) nor
   * `null` and whose lower-cased string contains the lower-cased term.
   */
  function MatchesAny(item: Record, keys: seq<string>, lowerTerm: string): (b: bool)
    ensures b <==> exists i :: 0 <= i < |keys| && keys[i] in item && item[keys[i]] != Null
                                && FieldMatches(item[keys[i]], lowerTerm)
  {
    if keys == [] then false
    else (keys[0] in item && item[keys[0]] != Null && FieldMatches(item[keys[0]], lowerTerm))
         || MatchesAny(item, keys[1..], lowerTerm)
  }

  /** `items.filter(item => MatchesAny(item, ...))` */
  function KeepMatching(items: seq<Record>, keys: seq<string>, lowerTerm: string): (r: seq<Record>)
    ensures IsSubsequence(r, items)
    ensures forall x :: x in r ==> x in items && MatchesAny(x, keys, lowerTerm)
    ensures forall x :: x in items && MatchesAny(x, keys, lowerTerm) ==> multiset(r)[x] == multiset(items)[x]
  {
    if items == [] then []
    else
      var rest := KeepMatching(items[1..], keys, lowerTerm);
      assert items == [items[0]] + items[1..];
      if MatchesAny(items[0], keys, lowerTerm) then [items[0]] + rest else rest
  }

  /**
   * `filteredItems`: all items, in order, when the debounced term is empty; otherwise exactly
   * the items some search key of which matches, in their original order and multiplicity.
   */
  function FilteredItems(items: seq<Record>, keys: seq<string>, term: string): (r: seq<Record>)
    ensures term == "" ==> r == items
    ensures IsSubsequence(r, items)
    ensures term != "" ==> forall x :: x in r ==> MatchesAny(x, keys, Lower(term))
    ensures forall x :: x in items && (term == "" || MatchesAny(x, keys, Lower(term))) ==>
                          multiset(r)[x] == multiset(items)[x]
  {
    if term == "" then
      SubsequenceOfItself(items);
      items
    else KeepMatching(items, keys, Lower(term))
  }

  lemma {:induction false} SubsequenceOfItself<T>(s: seq<T>)
    ensures IsSubsequence(s, s)
    decreases |s|
  {
    if s != [] {
      SubsequenceOfItself(s[1..]);
    }
  }

  /** An item whose search keys are all `null` or `undefined` is never kept for a non-empty term. */
  lemma NullFieldsNeverMatch(items: seq<Record>, keys: seq<string>, term: string, item: Record)
    requires term != ""
    requires forall i :: 0 <= i < |keys| ==> keys[i] !in item || item[keys[i]] == Null
    ensures item !in FilteredItems(items, keys, term)
  {
  }

  /** `displayedItems`: the prefix of the filtered items `slice(0, page * ItemsPerPage)` keeps. */
  function DisplayedItems<T>(filtered: seq<T>, page: nat): (r: seq<T>)
    ensures r <= filtered
    ensures |r| == if page * ItemsPerPage < |filtered| then page * ItemsPerPage else |filtered|
  {
    if page * ItemsPerPage < |filtered| then filtered[..page * ItemsPerPage] else filtered
  }

  /** `hasMore`: fewer items are displayed than pass the filter, that is, the page does not reach the end. */
  function HasMore<T>(filtered: seq<T>, page: nat): (b: bool)
    ensures b <==> page * ItemsPerPage < |filtered|
  {
    |DisplayedItems(filtered, page)| < |filtered|
  }

  /**
   * One more page never shrinks the displayed prefix; it grows while there is more, and once
   * there is no more it stays the same.
   */
  lemma LoadMoreNeverShrinks<T>(filtered: seq<T>, page: nat)
    ensures DisplayedItems(filtered, page) <= DisplayedItems(filtered, page + 1)
    ensures HasMore(filtered, page) ==> |DisplayedItems(filtered, page)| < |DisplayedItems(filtered, page + 1)|
    ensures !HasMore(filtered, page) ==> DisplayedItems(filtered, page + 1) == DisplayedItems(filtered, page)
  {
  }

  /**
   * The debounce state: the live term, the term filtering uses, and the term carried by the
   * pending timer (`debounceTimeout`), if one is pending.
   */
  datatype SearchState = SearchState(term: string, debounced: string, pending: Option<string>)

  /** What can happen to the search state: the user sets the term, or the 300 ms timer fires. */
  datatype SearchEvent = SetTerm(t: string) | TimerFires

  const InitialSearch := SearchState("", "", None)

  /**
   * The watcher on `searchTerm` runs only when the term changes; it cancels any pending timer
   * and schedules one carrying the new term.  When the timer fires, its term becomes the
   * debounced term.
   */
  function Step(s: SearchState, e: SearchEvent): (r: SearchState)
    ensures Settled(s) ==> Settled(r)
    ensures e.SetTerm? ==> r.term == e.t && r.debounced == s.debounced
    ensures e.SetTerm? && e.t != s.term ==> r.pending == Some(e.t)
    ensures e.SetTerm? && e.t == s.term ==> r == s
    ensures e.TimerFires? ==> r.term == s.term && r.pending == None
    ensures e.TimerFires? ==> if s.pending.Some? then r.debounced == s.pending.value else r == s
  {
    match e
    case SetTerm(t) => if t == s.term then s else SearchState(t, s.debounced, Some(t))
    case TimerFires =>
      match s.pending
      case Some(t) => SearchState(s.term, t, None)
      case None => s
  }

  /**
   * A run of events: without a timer firing the debounced term stays put, the debounced term
   * always comes from the start state, its pending timer or a term the user set, and the live
   * term is the last one set.
   */
  function Run(s: SearchState, es: seq<SearchEvent>): (r: SearchState)
    ensures TimerFires !in es ==> r.debounced == s.debounced
    ensures r.debounced == s.debounced || Some(r.debounced) == s.pending || SetTerm(r.debounced) in es
    ensures r.pending.Some? ==> r.pending == s.pending || SetTerm(r.pending.value) in es
    ensures es != [] && es[|es| - 1].SetTerm? ==> r.term == es[|es| - 1].t
    decreases |es|
  {
    if es == [] then s
    else
      assert es == [es[0]] + es[1..];
      Run(Step(s, es[0]), es[1..])
  }

  /** Keystrokes: a burst of term changes with no timer firing in between. */
  function Keystrokes(ts: seq<string>): seq<SearchEvent> {
    seq(|ts|, i requires 0 <= i < |ts| => SetTerm(ts[i]))
  }

  /** Either an update is pending and it carries the live term, or the debounced term is the live term. */
  predicate Settled(s: SearchState) {
    match s.pending
    case Some(t) => t == s.term
    case None => s.debounced == s.term
  }

  lemma {:induction false} RunAppend(s: SearchState, a: seq<SearchEvent>, b: seq<SearchEvent>)
    ensures Run(s, a + b) == Run(Run(s, a), b)
    decreases |a|
  {
    if a != [] {
      assert (a + b)[1..] == a[1..] + b;
      RunAppend(Step(s, a[0]), a[1..], b);
    } else {
      assert a + b == b;
    }
  }

  /** Every sequence of events keeps the state settled. */
  lemma {:induction false} RunKeepsSettled(s: SearchState, es: seq<SearchEvent>)
    requires Settled(s)
    ensures Settled(Run(s, es))
    decreases |es|
  {
    if es != [] {
      RunKeepsSettled(Step(s, es[0]), es[1..]);
    }
  }

  /** Keystrokes alone never change the debounced term: no filter pass runs during a burst. */
  lemma {:induction false} KeystrokesLeaveDebouncedAlone(s: SearchState, ts: seq<string>)
    ensures Run(s, Keystrokes(ts)).debounced == s.debounced
    ensures ts != [] ==> Run(s, Keystrokes(ts)).term == ts[|ts| - 1]
    decreases |ts|
  {
    if ts != [] {
      assert Keystrokes(ts)[1..] == Keystrokes(ts[1..]);
      KeystrokesLeaveDebouncedAlone(Step(s, SetTerm(ts[0])), ts[1..]);
    }
  }

  /**
   * Latest wins: after a burst of keystrokes, the timer applies the last term set, whatever
   * the earlier ones were.
   */
  lemma LatestTermWins(s: SearchState, ts: seq<string>)
    requires Settled(s) && ts != []
    ensures Run(s, Keystrokes(ts) + [TimerFires]).debounced == ts[|ts| - 1]
    ensures Run(s, Keystrokes(ts) + [TimerFires]).pending == None
  {
    RunAppend(s, Keystrokes(ts), [TimerFires]);
    KeystrokesLeaveDebouncedAlone(s, ts);
    RunKeepsSettled(s, Keystrokes(ts));
  }

  /** The state of `useFilterAndPagination(items, searchKeys)`. */
  class SearchPager {
    const searchKeys: seq<string>
    var searchTerm: string
    var debouncedSearchTerm: string
    var pendingTerm: Option<string>
    var currentPage: nat

    constructor (keys: seq<string>)
      ensures searchKeys == keys && State() == InitialSearch && currentPage == 1
    {
      searchKeys := keys;
      searchTerm := "";
      debouncedSearchTerm := "";
      pendingTerm := None;
      currentPage := 1;
    }

    function State(): SearchState
      reads this
    {
      SearchState(searchTerm, debouncedSearchTerm, pendingTerm)
    }

    /** The user types: the watcher reschedules the update; the page is left as it is. */
    method SetSearchTerm(t: string)
      modifies this
      ensures State() == Step(old(State()), SetTerm(t))
      ensures currentPage == old(currentPage)
    {
      if t != searchTerm {
        pendingTerm := Some(t);
        searchTerm := t;
      }
    }

    /** The pending timer fires. */
    method FireTimer()
      modifies this
      ensures State() == Step(old(State()), TimerFires)
      ensures currentPage == old(currentPage)
    {
      match pendingTerm
      case Some(t) =>
        debouncedSearchTerm := t;
        pendingTerm := None;
      case None =>
    }

    /** `loadMore`: the only change to the page. */
    method LoadMore()
      modifies this
      ensures currentPage == old(currentPage) + 1
      ensures State() == old(State())
    {
      currentPage := currentPage + 1;
    }

    /** `filteredItems` for the current debounced term. */
    function Filtered(items: seq<Record>): (r: seq<Record>)
      reads this
      ensures debouncedSearchTerm == "" ==> r == items
      ensures IsSubsequence(r, items)
      ensures debouncedSearchTerm != "" ==>
        forall x :: x in r ==> MatchesAny(x, searchKeys, Lower(debouncedSearchTerm))
      ensures forall x :: x in items && (debouncedSearchTerm == "" || MatchesAny(x, searchKeys, Lower(debouncedSearchTerm))) ==>
                            multiset(r)[x] == multiset(items)[x]
    {
      FilteredItems(items, searchKeys, debouncedSearchTerm)
    }

    /** `displayedItems`: the first `currentPage` pages of the filtered items. */
    function Displayed(items: seq<Record>): (r: seq<Record>)
      reads this
      ensures r <= Filtered(items)
      ensures |r| == if currentPage * ItemsPerPage < |Filtered(items)| then currentPage * ItemsPerPage
                     else |Filtered(items)|
    {
      DisplayedItems(Filtered(items), currentPage)
    }

    /** `hasMore`: the displayed prefix stops short of the filtered items. */
    function MoreToShow(items: seq<Record>): (b: bool)
      reads this
      ensures b <==> currentPage * ItemsPerPage < |Filtered(items)|
      ensures !b <==> Displayed(items) == Filtered(items)
    {
      HasMore(Filtered(items), currentPage)
    }
  }
}
