/**
 * The App component: it owns the paginated feed, the per-employee feed and
 * the employee roster, switches between the two feeds on selector changes,
 * and derives what is on screen: the displayed list, its visible window and
 * whether "View More" is offered.
 */
module App {
  import opened Wrappers
  import opened Types
  import opened PaginatedTransactions

  /**
   * Which array object the derived `transactions` value is. The "View More"
   * test compares it by identity with the paginated data, so the model keeps
   * track of where it came from, not only of its elements.
   */
  datatype Source = ByEmployee | Paginated | FreshEmpty

  /**
   * `transactionsByEmployee || paginatedTransactions?.data || []`: arrays are
   * truthy even when empty, so the first non-null one wins.
   */
  function DisplayedSource(byEmployee: Option<seq<Transaction>>, paginated: Option<Page>): Source {
    if byEmployee.Some? then ByEmployee
    else if paginated.Some? then Paginated
    else FreshEmpty
  }

  /**
   * The displayed list: the per-employee list whenever it is non-null (even
   * empty), otherwise the accumulated pages, otherwise nothing.
   */
  function DisplayedTransactions(byEmployee: Option<seq<Transaction>>, paginated: Option<Page>)
    : (r: seq<Transaction>)
    ensures byEmployee.Some? ==> r == byEmployee.value
    ensures byEmployee.None? && paginated.Some? ==> r == paginated.value.data
    ensures byEmployee.None? && paginated.None? ==> r == []
  {
    match DisplayedSource(byEmployee, paginated)
    case ByEmployee => byEmployee.value
    case Paginated => paginated.value.data
    case FreshEmpty => []
  }

  /** `transactions.slice(0, visibleCount)`: the visible window. */
  function Rendered(transactions: seq<Transaction>, visibleCount: nat): (r: seq<Transaction>)
    ensures r <= transactions
    ensures |r| == if visibleCount < |transactions| then visibleCount else |transactions|
  {
    if visibleCount < |transactions| then transactions[..visibleCount] else transactions
  }

  /**
   * The "View More" test: `transactions` is the very paginated array and its
   * `nextPage` is not null. It holds exactly when no per-employee list is
   * loaded and a stored page announces a further one.
   */
  function ViewMoreShown(byEmployee: Option<seq<Transaction>>, paginated: Option<Page>): (r: bool)
    ensures r <==> byEmployee.None? && paginated.Some? && paginated.value.nextPage.Some?
  {
    DisplayedSource(byEmployee, paginated) == Paginated && !IsTerminal(paginated)
  }

  /** The selector's items: nothing until the roster is loaded, then "All Employees" and the roster. */
  function SelectorItems(employees: Option<seq<Employee>>): (r: seq<Employee>)
    ensures employees.None? ==> r == []
    ensures employees.Some? ==>
              |r| == |employees.value| + 1 && r[0] == EmptyEmployee && r[1..] == employees.value
  {
    if employees.None? then [] else [EmptyEmployee] + employees.value
  }

  /** What the selector's `onChange` handler runs for a selected value. */
  datatype Command = NoOp | LoadAll | LoadByEmployee(employeeId: string)

  function SelectionCommand(newValue: Option<Employee>): (r: Command)
    ensures r.NoOp? <==> newValue.None?
    ensures r.LoadAll? <==> newValue.Some? && newValue.value.id == EmptyEmployee.id
    ensures r.LoadByEmployee? ==> r.employeeId == newValue.value.id
  {
    if newValue.None? then NoOp
    else if newValue.value.id == EmptyEmployee.id then LoadAll
    else LoadByEmployee(newValue.value.id)
  }

  /**
   * Picking an item of the selector: the first item loads every transaction,
   * a roster entry (whose id differs from the sentinel's) loads that
   * employee's transactions.
   */
  lemma SelectingAnItem(roster: seq<Employee>, i: nat)
    requires i <= |roster|
    requires forall e :: e in roster ==> e.id != EmptyEmployee.id
    ensures i == 0 ==> SelectionCommand(Some(SelectorItems(Some(roster))[i])) == LoadAll
    ensures i > 0 ==>
              SelectionCommand(Some(SelectorItems(Some(roster))[i])) == LoadByEmployee(roster[i - 1].id)
  {
    var items := SelectorItems(Some(roster));
    if i > 0 {
      assert items[i] == items[1..][i - 1] == roster[i - 1];
    }
  }

  /**
   * When "View More" is shown the displayed list is the paginated data, and
   * the click's fetch does issue a request, for the stored cursor.
   */
  lemma ViewMoreFetchesNextPage(byEmployee: Option<seq<Transaction>>, paginated: Option<Page>)
    requires ViewMoreShown(byEmployee, paginated)
    ensures DisplayedTransactions(byEmployee, paginated) == paginated.value.data
    ensures RequestedPage(paginated) == paginated.value.nextPage && RequestedPage(paginated).Some?
  {
  }

  /**
   * A "View More" click never takes anything off the screen: the window grows
   * by 5 over data that only grew, so what was visible before stays visible,
   * in the same order, at the head of the list.
   */
  lemma ViewMoreKeepsVisiblePrefix(paginated: Option<Page>, response: Option<Page>, visibleCount: nat)
    ensures Rendered(Accumulated(paginated), visibleCount) <=
            Rendered(Accumulated(FetchStep(paginated, response)), visibleCount + 5)
  {
    var before, after := Accumulated(paginated), Accumulated(FetchStep(paginated, response));
    var shown, shownAfter := Rendered(before, visibleCount), Rendered(after, visibleCount + 5);
    assert before == after[..|before|];
    assert shown == after[..|shown|];
    assert shownAfter == after[..|shownAfter|];
    assert |shown| <= |shownAfter|;
  }

  /**
   * With at most one feed loaded, the precedence among the feeds does not
   * matter: preferring the paginated data would show the same list.
   */
  lemma DisplayedIgnoresPrecedence(byEmployee: Option<seq<Transaction>>, paginated: Option<Page>)
    requires byEmployee.None? || paginated.None?
    ensures DisplayedTransactions(byEmployee, paginated) ==
            if paginated.Some? then paginated.value.data
            else if byEmployee.Some? then byEmployee.value
            else []
  {
  }

  /**
   * A step of the App's commands, in the order it happens, with the part of
   * the state that the step sees: the loading flag when it is set, whether
   * the other feed is already dropped when a fetch is issued, the window
   * when a page is fetched and after it grows.
   */
  datatype Event =
    | SetLoading(on: bool)
    | InvalidateByEmployee
    | FetchEmployees(loading: bool, byEmployeeCleared: bool)
    | FetchPage(requested: Option<int>, loading: bool, window: nat)
    | InvalidatePaginated
    | FetchByEmployee(employeeId: string, paginatedCleared: bool)
    | GrowWindow(window: nat)

  /**
   * The steps of `loadAllTransactions`, in order, from a paginated state
   * `page` and a window of size `window`.
   */
  function LoadAllEvents(page: Option<Page>, window: nat): seq<Event> {
    [SetLoading(true), InvalidateByEmployee, FetchEmployees(true, true),
     FetchPage(RequestedPage(page), true, window), SetLoading(false)]
  }

  /** The steps of `loadTransactionsByEmployee(employeeId)`, in order. */
  function LoadByEmployeeEvents(employeeId: string): seq<Event> {
    [InvalidatePaginated, FetchByEmployee(employeeId, true)]
  }

  /**
   * The App's state cells. The employee roster and the per-employee list are
   * kept by hooks whose code is not modelled: each of their fetches is given
   * as the value the store holds once it completes.
   */
  class AppState {
    const paginatedStore: PaginatedTransactionsStore
    var employees: Option<seq<Employee>>
    var byEmployee: Option<seq<Transaction>>
    var isLoading: bool
    var visibleCount: nat
    /** Every step taken so far, to state the order of the commands. */
    ghost var trace: seq<Event>

    constructor ()
      ensures fresh(paginatedStore) && paginatedStore.state == None
      ensures employees == None && byEmployee == None
      ensures !isLoading && visibleCount == 5 && trace == []
    {
      paginatedStore := new PaginatedTransactionsStore();
      employees := None;
      byEmployee := None;
      isLoading := false;
      visibleCount := 5;
      trace := [];
    }

    /** At most one of the two feeds holds data. */
    predicate AtMostOneActive()
      reads this, paginatedStore
    {
      byEmployee.None? || paginatedStore.state.None?
    }

    function Transactions(): seq<Transaction>
      reads this, paginatedStore
    {
      DisplayedTransactions(byEmployee, paginatedStore.state)
    }

    function Visible(): seq<Transaction>
      reads this, paginatedStore
    {
      Rendered(Transactions(), visibleCount)
    }

    function CanViewMore(): bool
      reads this, paginatedStore
    {
      ViewMoreShown(byEmployee, paginatedStore.state)
    }

    // Each step below changes one state cell and records itself in `trace`
    // with what it sees, so the commands cannot reorder a step without
    // reordering its event.

    /** `setIsLoading(on)`. */
    method SetLoadingStep(on: bool)
      modifies this
      ensures isLoading == on
      ensures employees == old(employees) && byEmployee == old(byEmployee)
      ensures visibleCount == old(visibleCount)
      ensures trace == old(trace) + [SetLoading(on)]
    {
      isLoading := on;
      trace := trace + [SetLoading(isLoading)];
    }

    /** `transactionsByEmployeeUtils.invalidateData()`. */
    method InvalidateByEmployeeStep()
      modifies this
      ensures byEmployee == None
      ensures employees == old(employees) && isLoading == old(isLoading)
      ensures visibleCount == old(visibleCount)
      ensures trace == old(trace) + [InvalidateByEmployee]
    {
      byEmployee := None;
      trace := trace + [InvalidateByEmployee];
    }

    /** `await employeeUtils.fetchAll()`, completing with `employeesAfter`. */
    method FetchEmployeesStep(employeesAfter: Option<seq<Employee>>)
      modifies this
      ensures employees == employeesAfter
      ensures byEmployee == old(byEmployee) && isLoading == old(isLoading)
      ensures visibleCount == old(visibleCount)
      ensures trace == old(trace) + [FetchEmployees(old(isLoading), old(byEmployee).None?)]
    {
      trace := trace + [FetchEmployees(isLoading, byEmployee.None?)];
      employees := employeesAfter;
    }

    /** `await paginatedTransactionsUtils.fetchAll()`. */
    method FetchPageStep(fetchPage: int -> Option<Page>) returns (requested: Option<int>)
      modifies this, paginatedStore
      ensures requested == RequestedPage(old(paginatedStore.state))
      ensures paginatedStore.state == FetchStep(old(paginatedStore.state), Answer(requested, fetchPage))
      ensures employees == old(employees) && byEmployee == old(byEmployee)
      ensures isLoading == old(isLoading) && visibleCount == old(visibleCount)
      ensures trace == old(trace) + [FetchPage(requested, old(isLoading), old(visibleCount))]
    {
      requested := paginatedStore.FetchAll(fetchPage);
      trace := trace + [FetchPage(requested, isLoading, visibleCount)];
    }

    /** `paginatedTransactionsUtils.invalidateData()`. */
    method InvalidatePaginatedStep()
      modifies this, paginatedStore
      ensures paginatedStore.state == None
      ensures employees == old(employees) && byEmployee == old(byEmployee)
      ensures isLoading == old(isLoading) && visibleCount == old(visibleCount)
      ensures trace == old(trace) + [InvalidatePaginated]
    {
      paginatedStore.InvalidateData();
      trace := trace + [InvalidatePaginated];
    }

    /** `await transactionsByEmployeeUtils.fetchById(employeeId)`. */
    method FetchByEmployeeStep(employeeId: string, fetchById: string -> Option<seq<Transaction>>)
      modifies this
      ensures byEmployee == fetchById(employeeId)
      ensures employees == old(employees) && isLoading == old(isLoading)
      ensures visibleCount == old(visibleCount)
      ensures trace == old(trace) + [FetchByEmployee(employeeId, paginatedStore.state.None?)]
    {
      trace := trace + [FetchByEmployee(employeeId, paginatedStore.state.None?)];
      byEmployee := fetchById(employeeId);
    }

    /** `setVisibleCount((prevCount) => prevCount + 5)`. */
    method GrowWindowStep()
      modifies this
      ensures visibleCount == old(visibleCount) + 5
      ensures employees == old(employees) && byEmployee == old(byEmployee)
      ensures isLoading == old(isLoading)
      ensures trace == old(trace) + [GrowWindow(visibleCount)]
    {
      visibleCount := visibleCount + 5;
      trace := trace + [GrowWindow(visibleCount)];
    }

    /**
     * `loadAllTransactions`: raise the loading flag, drop the per-employee
     * list, load the roster, fetch the next paginated page, lower the flag.
     * The paginated feed is not reset, so choosing "All Employees" again
     * appends the next page.
     */
    method LoadAllTransactions(employeesAfter: Option<seq<Employee>>, fetchPage: int -> Option<Page>)
      modifies this, paginatedStore
      ensures byEmployee == None && employees == employeesAfter
      ensures paginatedStore.state ==
              FetchStep(old(paginatedStore.state), Answer(RequestedPage(old(paginatedStore.state)), fetchPage))
      ensures !isLoading && visibleCount == old(visibleCount)
      ensures trace == old(trace) + LoadAllEvents(old(paginatedStore.state), old(visibleCount))
      ensures AtMostOneActive()
    {
      ghost var t0, page0, window0 := trace, paginatedStore.state, visibleCount;
      SetLoadingStep(true);
      InvalidateByEmployeeStep();
      FetchEmployeesStep(employeesAfter);
      assert trace == t0 + [SetLoading(true), InvalidateByEmployee, FetchEmployees(true, true)];
      assert paginatedStore.state == page0;
      var requested := FetchPageStep(fetchPage);
      assert trace == t0 + [SetLoading(true), InvalidateByEmployee, FetchEmployees(true, true),
                            FetchPage(RequestedPage(page0), true, window0)];
      SetLoadingStep(false);
      assert trace == t0 + LoadAllEvents(page0, window0);
    }

    /**
     * `loadTransactionsByEmployee`: drop the paginated feed, then load the
     * employee's list. The loading flag is not touched.
     */
    method LoadTransactionsByEmployee(employeeId: string, fetchById: string -> Option<seq<Transaction>>)
      modifies this, paginatedStore
      ensures paginatedStore.state == None && byEmployee == fetchById(employeeId)
      ensures employees == old(employees) && isLoading == old(isLoading)
      ensures visibleCount == old(visibleCount)
      ensures trace == old(trace) + LoadByEmployeeEvents(employeeId)
      ensures AtMostOneActive()
    {
      InvalidatePaginatedStep();
      FetchByEmployeeStep(employeeId, fetchById);
    }

    /** The startup effect: load everything once while no roster is loaded or loading. */
    method Startup(employeesLoading: bool, employeesAfter: Option<seq<Employee>>, fetchPage: int -> Option<Page>)
      modifies this, paginatedStore
      ensures old(employees).Some? || employeesLoading ==>
                employees == old(employees) && byEmployee == old(byEmployee) &&
                paginatedStore.state == old(paginatedStore.state) &&
                isLoading == old(isLoading) && trace == old(trace)
      ensures old(employees).None? && !employeesLoading ==>
                employees == employeesAfter && byEmployee == None && !isLoading &&
                paginatedStore.state ==
                FetchStep(old(paginatedStore.state), Answer(RequestedPage(old(paginatedStore.state)), fetchPage))
      ensures old(employees).None? && !employeesLoading ==>
                trace == old(trace) + LoadAllEvents(old(paginatedStore.state), old(visibleCount))
      ensures visibleCount == old(visibleCount)
      ensures old(AtMostOneActive()) ==> AtMostOneActive()
    {
      if employees.None? && !employeesLoading {
        LoadAllTransactions(employeesAfter, fetchPage);
      }
    }

    /** The selector's `onChange`: nothing for null, else one of the two loads. */
    method OnChange(newValue: Option<Employee>, employeesAfter: Option<seq<Employee>>,
                    fetchPage: int -> Option<Page>, fetchById: string -> Option<seq<Transaction>>)
      modifies this, paginatedStore
      ensures SelectionCommand(newValue).NoOp? ==>
                employees == old(employees) && byEmployee == old(byEmployee) &&
                paginatedStore.state == old(paginatedStore.state) &&
                isLoading == old(isLoading) && trace == old(trace)
      ensures SelectionCommand(newValue).LoadAll? ==>
                byEmployee == None && employees == employeesAfter && !isLoading &&
                paginatedStore.state ==
                FetchStep(old(paginatedStore.state), Answer(RequestedPage(old(paginatedStore.state)), fetchPage))
      ensures SelectionCommand(newValue).LoadAll? ==>
                trace == old(trace) + LoadAllEvents(old(paginatedStore.state), old(visibleCount))
      ensures SelectionCommand(newValue).LoadByEmployee? ==>
                paginatedStore.state == None && byEmployee == fetchById(newValue.value.id) &&
                employees == old(employees) && isLoading == old(isLoading)
      ensures SelectionCommand(newValue).LoadByEmployee? ==>
                trace == old(trace) + LoadByEmployeeEvents(newValue.value.id)
      ensures !SelectionCommand(newValue).NoOp? ==> AtMostOneActive()
      ensures old(AtMostOneActive()) ==> AtMostOneActive()
      ensures visibleCount == old(visibleCount)
    {
      match SelectionCommand(newValue)
      case NoOp =>
      case LoadAll =>
        LoadAllTransactions(employeesAfter, fetchPage);
      case LoadByEmployee(id) =>
        LoadTransactionsByEmployee(id, fetchById);
    }

    /** The "View More" click: fetch the next page, then widen the window by 5. */
    method ViewMore(fetchPage: int -> Option<Page>)
      requires CanViewMore()
      modifies this, paginatedStore
      ensures paginatedStore.state ==
              Merge(old(paginatedStore.state), fetchPage(old(paginatedStore.state).value.nextPage.value))
      ensures visibleCount == old(visibleCount) + 5
      ensures employees == old(employees) && byEmployee == old(byEmployee) && isLoading == old(isLoading)
      ensures trace == old(trace) + [FetchPage(old(paginatedStore.state).value.nextPage, old(isLoading), old(visibleCount)),
                                     GrowWindow(old(visibleCount) + 5)]
      ensures old(Visible()) <= Visible()
      ensures old(AtMostOneActive()) ==> AtMostOneActive()
    {
      ghost var before := paginatedStore.state;
      var requested := FetchPageStep(fetchPage);
      GrowWindowStep();
      ViewMoreKeepsVisiblePrefix(before, Answer(requested, fetchPage), visibleCount - 5);
    }
  }

  /** Builds a transaction of the walkthrough below. */
  function Tx(id: string, owner: Employee): Transaction {
    Transaction(id, 100, owner, "Merchant", "2024-01-01", false)
  }

  /**
   * A walkthrough: two pages for "All Employees", a "View More", a switch to
   * one employee, and back. Each assertion follows from the commands'
   * contracts alone.
   */
  method Walkthrough() {
    var alice, bob := Employee("1", "Alice", "A"), Employee("2", "Bob", "B");
    var t1, t2, t3, t4, t5, t6 := Tx("t1", alice), Tx("t2", alice), Tx("t3", bob),
                                  Tx("t4", bob), Tx("t5", alice), Tx("t6", bob);
    var t9 := Tx("t9", bob);
    var page1 := Page([t1, t2, t3, t4, t5], Some(1));
    var page2 := Page([t6], None);
    var fetchPage: int -> Option<Page> := p => if p == 0 then Some(page1) else if p == 1 then Some(page2) else None;
    var fetchById: string -> Option<seq<Transaction>> := id => if id == "2" then Some([t9]) else Some([]);

    var app := new AppState();
    app.Startup(false, Some([alice, bob]), fetchPage);
    assert app.paginatedStore.state == Some(page1);
    assert app.Visible() == [t1, t2, t3, t4, t5];
    assert app.CanViewMore();

    assert fetchPage(1) == Some(page2);
    app.ViewMore(fetchPage);
    assert [t1, t2, t3, t4, t5] + [t6] == [t1, t2, t3, t4, t5, t6];
    assert app.paginatedStore.state == Some(Page([t1, t2, t3, t4, t5, t6], None));
    assert app.visibleCount == 10;
    assert app.Visible() == [t1, t2, t3, t4, t5, t6];
    assert !app.CanViewMore();

    app.OnChange(Some(bob), Some([alice, bob]), fetchPage, fetchById);
    assert app.Visible() == [t9];
    assert app.paginatedStore.state == None;
    assert !app.CanViewMore();

    app.OnChange(Some(EmptyEmployee), Some([alice, bob]), fetchPage, fetchById);
    assert app.paginatedStore.state == Some(page1);
    assert app.byEmployee == None;
    assert app.visibleCount == 10;
    assert app.Visible() == [t1, t2, t3, t4, t5];
  }
}
