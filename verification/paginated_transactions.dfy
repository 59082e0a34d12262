/**
 * The paginated transactions feed: one state cell holding the pages merged
 * so far (or nothing), a `fetchAll` command that asks the data source for the
 * next page and merges the answer, and an `invalidateData` command that
 * forgets everything.
 */
module PaginatedTransactions {
  import opened Wrappers
  import opened Types

  /**
   * A response of the "paginatedTransactions" request, and also the shape of
   * the stored state: a batch of transactions and the cursor of the page after
   * it. `nextPage == None` marks the last page.
   */
  datatype Page = Page(data: seq<Transaction>, nextPage: Option<int>)

  /** A terminal page has been stored: no page is left to fetch. */
  predicate IsTerminal(s: Option<Page>) {
    s.Some? && s.value.nextPage.None?
  }

  /** The transactions accumulated so far; none while the state is null. */
  function Accumulated(s: Option<Page>): seq<Transaction> {
    if s.None? then [] else s.value.data
  }

  /**
   * The page `fetchAll` asks for, or `None` when its guard returns before
   * issuing any request.
   */
  function RequestedPage(s: Option<Page>): (r: Option<int>)
    ensures r.None? <==> IsTerminal(s)
    ensures s.None? ==> r == Some(0)
    ensures s.Some? && r.Some? ==> r == s.value.nextPage
  {
    if IsTerminal(s) then None
    else if s.None? then Some(0)
    else s.value.nextPage
  }

  /**
   * The state updater of `fetchAll`: how the previous state and the answer
   * of the data source combine.
   */
  function Merge(previous: Option<Page>, response: Option<Page>): (r: Option<Page>)
    ensures response.None? ==> r == previous
    ensures previous.None? ==> r == response
    ensures response.Some? ==>
              r.Some? &&
              r.value.data == Accumulated(previous) + response.value.data &&
              r.value.nextPage == response.value.nextPage
    ensures previous.Some? ==> r.Some?
    ensures Accumulated(previous) <= Accumulated(r)
  {
    if response.None? then previous
    else if previous.None? then response
    else Some(Page(previous.value.data + response.value.data, response.value.nextPage))
  }

  /** What the data source answered, or `None` when no request was issued. */
  function Answer(requested: Option<int>, fetch: int -> Option<Page>): Option<Page> {
    if requested.None? then None else fetch(requested.value)
  }

  /**
   * The state after one `fetchAll` from `s` whose request, if it was issued,
   * was answered with `response`.
   */
  function FetchStep(s: Option<Page>, response: Option<Page>): (r: Option<Page>)
    ensures IsTerminal(s) ==> r == s
    ensures response.None? ==> r == s
    ensures s.Some? ==> r.Some?
    ensures Accumulated(s) <= Accumulated(r)
  {
    if IsTerminal(s) then s else Merge(s, response)
  }

  /** The state after successive `fetchAll` calls answered with `responses`, in order. */
  function Run(s: Option<Page>, responses: seq<Option<Page>>): Option<Page>
    decreases |responses|
  {
    if responses == [] then s else Run(FetchStep(s, responses[0]), responses[1..])
  }

  /** P1.data ++ P2.data ++ ... ++ Pn.data. */
  function Concat(pages: seq<Page>): seq<Transaction> {
    if pages == [] then [] else pages[0].data + Concat(pages[1..])
  }

  /** Every page of `pages`, received as a non-null answer. */
  function Answers(pages: seq<Page>): seq<Option<Page>> {
    if pages == [] then [] else [Some(pages[0])] + Answers(pages[1..])
  }

  /**
   * Between invalidations the accumulated transactions only grow: whatever
   * was accumulated before is a prefix of what is accumulated after any
   * number of fetches, and a non-null state never becomes null again.
   */
  lemma {:induction false} RunExtends(s: Option<Page>, responses: seq<Option<Page>>)
    ensures Accumulated(s) <= Accumulated(Run(s, responses))
    ensures |Accumulated(s)| <= |Accumulated(Run(s, responses))|
    ensures s.Some? ==> Run(s, responses).Some?
    decreases |responses|
  {
    if responses != [] {
      var next := FetchStep(s, responses[0]);
      RunExtends(next, responses[1..]);
      PrefixTransitive(Accumulated(s), Accumulated(next), Accumulated(Run(s, responses)));
    }
  }

  lemma PrefixTransitive(a: seq<Transaction>, b: seq<Transaction>, c: seq<Transaction>)
    requires a <= b && b <= c
    ensures a <= c
  {
  }

  /**
   * Once a terminal page is stored, further fetches issue no request and
   * leave the state exactly as it was, whatever they would have received.
   */
  lemma {:induction false} TerminalStaysPut(s: Option<Page>, responses: seq<Option<Page>>)
    requires IsTerminal(s)
    ensures Run(s, responses) == s
    ensures RequestedPage(Run(s, responses)).None?
    decreases |responses|
  {
    if responses != [] {
      TerminalStaysPut(FetchStep(s, responses[0]), responses[1..]);
    }
  }

  /** Null answers, however many, leave the state exactly as it was, null included. */
  lemma {:induction false} NullAnswersKeepState(s: Option<Page>, responses: seq<Option<Page>>)
    requires forall i :: 0 <= i < |responses| ==> responses[i].None?
    ensures Run(s, responses) == s
    decreases |responses|
  {
    if responses != [] {
      NullAnswersKeepState(FetchStep(s, responses[0]), responses[1..]);
    }
  }

  /** Every page but the last announces a further one. */
  predicate OnlyLastTerminal(pages: seq<Page>) {
    forall i :: 0 <= i < |pages| - 1 ==> pages[i].nextPage.Some?
  }

  /**
   * After a non-terminal state, pages P1..Pn of which only the last may be
   * terminal are appended in arrival order, and the cursor is Pn's.
   */
  lemma {:induction false} AccumulatesOnto(s: Option<Page>, pages: seq<Page>)
    requires !IsTerminal(s)
    requires |pages| > 0 && OnlyLastTerminal(pages)
    ensures Run(s, Answers(pages)) ==
            Some(Page(Accumulated(s) + Concat(pages), pages[|pages| - 1].nextPage))
    decreases |pages|
  {
    if |pages| == 1 {
      AccumulatesOne(s, pages);
    } else {
      var next, rest := FetchStep(s, Some(pages[0])), pages[1..];
      RunAnswersUnfold(s, pages);
      assert next == Some(Page(Accumulated(s) + pages[0].data, pages[0].nextPage));
      assert OnlyLastTerminal(rest) by {
        forall i | 0 <= i < |rest| - 1 ensures rest[i].nextPage.Some? {
          assert rest[i] == pages[i + 1];
        }
      }
      AccumulatesOnto(next, rest);
      assert rest[|rest| - 1] == pages[|pages| - 1];
      ConcatUnfold(Accumulated(s), pages);
    }
  }

  /** The last step of `AccumulatesOnto`: a single page. */
  lemma AccumulatesOne(s: Option<Page>, pages: seq<Page>)
    requires !IsTerminal(s) && |pages| == 1
    ensures Run(s, Answers(pages)) == Some(Page(Accumulated(s) + Concat(pages), pages[0].nextPage))
  {
    var next := FetchStep(s, Some(pages[0]));
    RunAnswersUnfold(s, pages);
    assert pages[1..] == [] && Answers([]) == [];
    assert Run(s, Answers(pages)) == next;
    assert next == Some(Page(Accumulated(s) + pages[0].data, pages[0].nextPage));
    assert Concat(pages) == pages[0].data + Concat([]) == pages[0].data;
  }

  /** `acc ++ Concat(pages)` is `acc ++ pages[0].data` followed by the rest. */
  lemma ConcatUnfold(acc: seq<Transaction>, pages: seq<Page>)
    requires |pages| > 0
    ensures acc + Concat(pages) == (acc + pages[0].data) + Concat(pages[1..])
  {
  }

  /** One step of `Run` over the answers of `pages`. */
  lemma RunAnswersUnfold(s: Option<Page>, pages: seq<Page>)
    requires |pages| > 0
    ensures Run(s, Answers(pages)) == Run(FetchStep(s, Some(pages[0])), Answers(pages[1..]))
  {
  }

  /**
   * From a null state, non-null pages P1..Pn (only the last possibly
   * terminal) leave data == P1.data ++ ... ++ Pn.data and nextPage == Pn.nextPage.
   */
  lemma AccumulatesPages(pages: seq<Page>)
    requires |pages| > 0 && OnlyLastTerminal(pages)
    ensures Run(None, Answers(pages)) == Some(Page(Concat(pages), pages[|pages| - 1].nextPage))
  {
    AccumulatesOnto(None, pages);
    assert Accumulated(None) + Concat(pages) == Concat(pages);
  }

  /**
   * The cursor follows the last page received: after a page is merged, the
   * next request asks for that page's `nextPage`, or is not issued at all
   * when that page was the last.
   */
  lemma NextRequestFollowsCursor(s: Option<Page>, page: Page)
    requires !IsTerminal(s)
    ensures RequestedPage(FetchStep(s, Some(page))) == page.nextPage
  {
  }

  /** The hook's single state cell and its two commands. */
  class PaginatedTransactionsStore {
    var state: Option<Page>

    constructor ()
      ensures state == None
    {
      state := None;
    }

    /**
     * Requests the next page unless a terminal page is stored, and merges the
     * answer `fetch` gives for it. Returns the requested page, `None` when
     * no request was issued.
     */
    method FetchAll(fetch: int -> Option<Page>) returns (requested: Option<int>)
      modifies this
      ensures requested == RequestedPage(old(state))
      ensures requested.None? ==> state == old(state)
      ensures state == FetchStep(old(state), Answer(requested, fetch))
    {
      if state.Some? && state.value.nextPage.None? {
        requested := None;
        return;
      }
      requested := Some(if state.None? then 0 else state.value.nextPage.value);
      var response := fetch(requested.value);
      state := Merge(state, response);
    }

    /** Forgets every page; the next `FetchAll` starts again at page 0. */
    method InvalidateData()
      modifies this
      ensures state == None
      ensures RequestedPage(state) == Some(0)
    {
      state := None;
    }
  }
}
