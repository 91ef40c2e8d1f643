/**
 * The App component's six pieces of state as one value, the events that
 * change them, and what holds over any sequence of events. The class in
 * app.dfy keeps the same six fields and is proved to follow `Step`.
 */
module SessionModel {
  import opened Options
  import opened Stories
  import opened Endpoint

  /** `searchTerm`, `query`, `newList`, `isLoading`, `isError`, `page`. */
  datatype Session = Session(
    searchTerm: string,
    query: string,
    newList: seq<Item>,
    isLoading: bool,
    isError: bool,
    page: nat)

  /** What can happen to the component. `EffectRan` is the fetch effect, which
      React runs after `searchTerm` or `page` changed; the two `Fetch…` events
      are the outcome of the request it issued. */
  datatype Event =
    | Typed(text: string)
    | Submitted
    | MoreClicked
    | Dismissed(id: ObjectId)
    | EffectRan
    | FetchSucceeded(hits: seq<Item>)
    | FetchFailed

  /** The state the component mounts with. */
  function Initial(): (s: Session)
    ensures s.searchTerm == s.query == "react"
    ensures s.newList == SeedList() && s.page == 0
    ensures !s.isLoading && !s.isError
  {
    Session("react", "react", SeedList(), false, false, 0)
  }

  /** The request the fetch effect issues in state `s`, if any: none for an
      empty term, otherwise the search URL for the term and the page. */
  function Request(s: Session): (r: Option<string>)
    ensures r.None? <==> s.searchTerm == ""
    ensures r.Some? ==> ParseSearchUrl(r.value) == Some((s.searchTerm, s.page))
  {
    if |s.searchTerm| > 0 then
      ParseSearchUrlRoundTrip(s.searchTerm, s.page);
      Some(SearchUrl(s.searchTerm, s.page))
    else None
  }

  /** The effect of one event on the state. */
  function Step(s: Session, e: Event): Session {
    match e
    case Typed(text) => s.(query := text)
    case Submitted => s.(searchTerm := s.query)
    case MoreClicked => s.(page := s.page + 1)
    case Dismissed(id) => s.(newList := Dismiss(s.newList, id))
    case EffectRan =>
      if |s.searchTerm| > 0 then s.(isLoading := true) else s.(newList := SeedList())
    case FetchSucceeded(hits) => s.(newList := hits, isLoading := false)
    case FetchFailed => s.(isLoading := false, isError := true)
  }

  /** The state after the events `es`, in order. */
  function Run(s: Session, es: seq<Event>): Session
    decreases |es|
  {
    if es == [] then s else Run(Step(s, es[0]), es[1..])
  }

  function CountMore(es: seq<Event>): nat {
    if es == [] then 0 else (if es[0].MoreClicked? then 1 else 0) + CountMore(es[1..])
  }

  /** The texts typed during `es`. */
  function TypedTexts(es: seq<Event>): set<string> {
    if es == [] then {} else (if es[0].Typed? then {es[0].text} else {}) + TypedTexts(es[1..])
  }

  /** The items delivered by the successful fetches in `es`. */
  function Delivered(es: seq<Event>): set<Item> {
    if es == [] then {}
    else (if es[0].FetchSucceeded? then set x | x in es[0].hits else {}) + Delivered(es[1..])
  }

  /** Submitting makes the term what was typed last. */
  lemma SubmitAfterTyping(s: Session, text: string)
    ensures Run(s, [Typed(text), Submitted]).searchTerm == text
    ensures Run(s, [Typed(text), Submitted]).query == text
  {
    var s1 := Step(s, Typed(text));
    assert Run(s1, [Submitted]) == Run(Step(s1, Submitted), []);
  }

  /** Once set, the error flag stays set whatever happens next: no transition
      clears it, not even a successful fetch. */
  lemma {:induction false} ErrorIsSticky(s: Session, es: seq<Event>)
    requires s.isError
    ensures Run(s, es).isError
    decreases |es|
  {
    if es != [] {
      ErrorIsSticky(Step(s, es[0]), es[1..]);
    }
  }

  /** The error flag is only ever raised by a failed fetch. */
  lemma {:induction false} ErrorNeedsFailure(s: Session, es: seq<Event>)
    requires !s.isError && Run(s, es).isError
    ensures FetchFailed in es
    decreases |es|
  {
    if es[0] != FetchFailed {
      ErrorNeedsFailure(Step(s, es[0]), es[1..]);
      assert FetchFailed in es[1..];
    }
  }

  /** The loading flag is only ever raised by the fetch effect. */
  lemma {:induction false} LoadingNeedsEffect(s: Session, es: seq<Event>)
    requires !s.isLoading && Run(s, es).isLoading
    ensures EffectRan in es
    decreases |es|
  {
    if es[0] != EffectRan {
      LoadingNeedsEffect(Step(s, es[0]), es[1..]);
      assert EffectRan in es[1..];
    }
  }

  /** The page counts the clicks on "More" and never goes back. */
  lemma {:induction false} PageCountsMore(s: Session, es: seq<Event>)
    ensures Run(s, es).page == s.page + CountMore(es)
    decreases |es|
  {
    if es != [] {
      PageCountsMore(Step(s, es[0]), es[1..]);
    }
  }

  /** The term only ever holds its own earlier value, the earlier query, or a
      text typed since; the query only its earlier value or a typed text. */
  lemma {:induction false} TermComesFromQuery(s: Session, es: seq<Event>)
    ensures Run(s, es).searchTerm in {s.searchTerm, s.query} + TypedTexts(es)
    ensures Run(s, es).query in {s.query} + TypedTexts(es)
    decreases |es|
  {
    if es != [] {
      TermComesFromQuery(Step(s, es[0]), es[1..]);
    }
  }

  /** Without a submission the term does not change, whatever is typed. */
  lemma {:induction false} TermNeedsSubmit(s: Session, es: seq<Event>)
    requires Submitted !in es
    ensures Run(s, es).searchTerm == s.searchTerm
    decreases |es|
  {
    if es != [] {
      assert es[0] in es;
      assert forall e :: e in es[1..] ==> e in es;
      TermNeedsSubmit(Step(s, es[0]), es[1..]);
    }
  }

  /** Every item shown was there before, is a seed item, or came with a
      successful fetch: dismissing never adds an item. */
  lemma {:induction false} ItemsHaveASource(s: Session, es: seq<Event>, x: Item)
    requires x in Run(s, es).newList
    ensures x in s.newList || x in SeedList() || x in Delivered(es)
    decreases |es|
  {
    if es != [] {
      ItemsHaveASource(Step(s, es[0]), es[1..], x);
    }
  }

  /** The list only changes by a dismissal, by the fetch effect or by a
      successful fetch; a failed fetch leaves it untouched. */
  lemma {:induction false} ListChangesOnlyBy(s: Session, es: seq<Event>)
    requires forall i :: 0 <= i < |es| ==>
               !es[i].Dismissed? && !es[i].EffectRan? && !es[i].FetchSucceeded?
    ensures Run(s, es).newList == s.newList
    decreases |es|
  {
    if es != [] {
      assert !es[0].Dismissed? && !es[0].EffectRan? && !es[0].FetchSucceeded?;
      ListChangesOnlyBy(Step(s, es[0]), es[1..]);
    }
  }

  /** A request issued and answered: the hits replace the list, loading ends,
      and an earlier error is still shown. */
  lemma FetchThenSuccess(s: Session, hits: seq<Item>)
    requires s.searchTerm != ""
    ensures Request(s).Some?
    ensures Run(s, [EffectRan, FetchSucceeded(hits)]) ==
            s.(newList := hits, isLoading := false)
  {
    var s1 := Step(s, EffectRan);
    assert Run(s1, [FetchSucceeded(hits)]) == Run(Step(s1, FetchSucceeded(hits)), []);
  }

  /** A request issued and failed: the list is what it was, loading ends and
      the error flag is set. */
  lemma FetchThenFailure(s: Session)
    requires s.searchTerm != ""
    ensures Run(s, [EffectRan, FetchFailed]) ==
            s.(isLoading := false, isError := true)
  {
    var s1 := Step(s, EffectRan);
    assert Run(s1, [FetchFailed]) == Run(Step(s1, FetchFailed), []);
  }

  /** Nothing ties a response to the request that caused it: a response to a
      search issued before the term was cleared still replaces the seed list
      the cleared term brought back. */
  lemma LateResponseOverwritesSeed(s: Session, hits: seq<Item>)
    requires s.searchTerm != ""
    ensures Run(s, [EffectRan, Typed(""), Submitted, EffectRan, FetchSucceeded(hits)]) ==
            s.(searchTerm := "", query := "", newList := hits, isLoading := false)
  {
    var s1 := Step(s, EffectRan);
    var s2 := Step(s1, Typed(""));
    var s3 := Step(s2, Submitted);
    var s4 := Step(s3, EffectRan);
    var s5 := Step(s4, FetchSucceeded(hits));
    assert Run(s4, [FetchSucceeded(hits)]) == Run(s5, []) == s5;
    assert Run(s3, [EffectRan, FetchSucceeded(hits)]) == Run(s4, [FetchSucceeded(hits)]);
    assert Run(s2, [Submitted, EffectRan, FetchSucceeded(hits)])
        == Run(s3, [EffectRan, FetchSucceeded(hits)]);
    assert Run(s1, [Typed(""), Submitted, EffectRan, FetchSucceeded(hits)])
        == Run(s2, [Submitted, EffectRan, FetchSucceeded(hits)]);
  }

  /** On mount the effect asks for the first page of "react". */
  lemma FirstRequest()
    ensures Request(Initial()) == Some("https://hn.algolia.com/api/v1/search?query=react&page=0")
  {
    assert Decimal(0) == "0";
    assert SearchPrefix() == "https://hn.algolia.com/api/v1/search?query=";
    assert SearchUrl("react", 0) == SearchPrefix() + "react" + "&" + "page=" + "0";
    assert SearchUrl("react", 0) == "https://hn.algolia.com/api/v1/search?query=react&page=0";
    assert Request(Initial()) == Some(SearchUrl("react", 0));
  }
}
