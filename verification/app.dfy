/**
 * The App component: six fields updated in place by its handlers and by the
 * fetch effect, one setter at a time. Every method is proved to move the
 * fields exactly as `Step` says for its event; `TypeThenSubmit` shows how a
 * chain of calls composes into `Run`.
 */
module AppComponent {
  import opened Options
  import opened Stories
  import opened Endpoint
  import opened SessionModel

  class App {
    var searchTerm: string
    var query: string
    var newList: seq<Item>
    var isLoading: bool
    var isError: bool
    var page: nat

    /** The six fields as one value. */
    function State(): Session
      reads this
    {
      Session(searchTerm, query, newList, isLoading, isError, page)
    }

    /** Mounting: both terms "react", the seed list, no flags, page 0. */
    constructor ()
      ensures State() == Initial()
      ensures searchTerm == query == "react" && newList == SeedList()
      ensures !isLoading && !isError && page == 0
    {
      searchTerm := "react";
      query := "react";
      newList := SeedList();
      isLoading := false;
      isError := false;
      page := 0;
    }

    /** Typing in the search box. */
    method OnChange(text: string)
      modifies this
      ensures query == text
      ensures searchTerm == old(searchTerm) && newList == old(newList) && page == old(page)
      ensures isLoading == old(isLoading) && isError == old(isError)
      ensures State() == Step(old(State()), Typed(text))
    {
      query := text;
    }

    /** Submitting the search form. */
    method OnStartSearch()
      modifies this
      ensures searchTerm == old(query)
      ensures query == old(query) && newList == old(newList) && page == old(page)
      ensures isLoading == old(isLoading) && isError == old(isError)
      ensures State() == Step(old(State()), Submitted)
    {
      searchTerm := query;
    }

    /** The "More" button. */
    method OnMore()
      modifies this
      ensures page == old(page) + 1
      ensures searchTerm == old(searchTerm) && query == old(query) && newList == old(newList)
      ensures isLoading == old(isLoading) && isError == old(isError)
      ensures State() == Step(old(State()), MoreClicked)
    {
      page := page + 1;
    }

    /** The "Dismiss" button of the row whose `objectID` is `id`. */
    method OnDismiss(id: ObjectId)
      modifies this
      ensures newList == Dismiss(old(newList), id)
      ensures forall x :: x in newList <==> x in old(newList) && x.objectID != id
      ensures IsSubsequence(newList, old(newList))
      ensures searchTerm == old(searchTerm) && query == old(query) && page == old(page)
      ensures isLoading == old(isLoading) && isError == old(isError)
      ensures State() == Step(old(State()), Dismissed(id))
    {
      newList := Dismiss(newList, id);
      DismissIsSubsequence(old(newList), id);
    }

    /** The fetch effect. With a term it raises the loading flag and returns
        the request it issues; without one it restores the seed list and
        issues nothing. The answer arrives later through `OnFetchSuccess` or
        `OnFetchFailure`. */
    method RunEffect() returns (request: Option<string>)
      modifies this
      ensures request == Request(old(State()))
      ensures request.Some? ==> request.value == SearchUrl(searchTerm, page)
      ensures old(searchTerm) != "" ==> isLoading && newList == old(newList)
      ensures old(searchTerm) == "" ==> newList == SeedList() && isLoading == old(isLoading)
      ensures searchTerm == old(searchTerm) && query == old(query) && page == old(page)
      ensures isError == old(isError)
      ensures State() == Step(old(State()), EffectRan)
    {
      if |searchTerm| > 0 {
        isLoading := true;
        request := Some(SearchUrl(searchTerm, page));
      } else {
        newList := SeedList();
        request := None;
      }
    }

    /** The request answered with `hits`: they replace the list. The error
        flag is left as it was. */
    method OnFetchSuccess(hits: seq<Item>)
      modifies this
      ensures newList == hits && !isLoading
      ensures searchTerm == old(searchTerm) && query == old(query) && page == old(page)
      ensures isError == old(isError)
      ensures State() == Step(old(State()), FetchSucceeded(hits))
    {
      newList := hits;
      isLoading := false;
    }

    /** The request or the decoding of its answer failed: the list stays. */
    method OnFetchFailure()
      modifies this
      ensures !isLoading && isError
      ensures newList == old(newList)
      ensures searchTerm == old(searchTerm) && query == old(query) && page == old(page)
      ensures State() == Step(old(State()), FetchFailed)
    {
      isLoading := false;
      isError := true;
    }
  }

  /** Two calls in a row follow `Run` over their two events: typing then
      submitting leaves the class where the value model says it is. */
  method TypeThenSubmit(app: App, text: string)
    modifies app
    ensures app.State() == Run(old(app.State()), [Typed(text), Submitted])
    ensures app.searchTerm == text && app.query == text
  {
    ghost var s0 := app.State();
    app.OnChange(text);
    ghost var s1 := app.State();
    app.OnStartSearch();
    assert Run(s1, [Submitted]) == Run(Step(s1, Submitted), []);
    assert Run(s0, [Typed(text), Submitted]) == Run(s1, [Submitted]);
  }

  /** A session driven through the class: mount, fetch, fail, type, submit,
      fetch again and succeed. The error shown after the failure is still
      shown after the success. */
  method ErrorSurvivesSuccess(hits: seq<Item>) returns (shown: seq<Item>, error: bool)
    ensures shown == hits && error
  {
    var app := new App();
    var r := app.RunEffect();
    app.OnFetchFailure();
    assert app.newList == SeedList();
    app.OnChange("redux");
    app.OnStartSearch();
    r := app.RunEffect();
    assert r == Some(SearchUrl("redux", 0));
    app.OnFetchSuccess(hits);
    shown, error := app.newList, app.isError;
  }
}
