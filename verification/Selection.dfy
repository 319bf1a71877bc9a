/** Selecting rows in the transaction list (src/client/TransactionBrowser.tsx): two modes of
    selection, pages that come and go, and the accounts of rows that left the screen. */
module Selection {
  import opened Options

  type Id = string
  type Account = string

  datatype Row = Row(id: Id, version: int, source: Option<Account>, destination: Option<Account>)

  type RowAccounts = map<Id, seq<Account>>

  datatype Choice =
    | Ids(versions: map<Id, int>, rowAccounts: RowAccounts)
    | Filter(excluded: set<Id>, rowAccounts: RowAccounts)

  const EMPTY := Ids(map[], map[])

  /** The accounts on either side of the row. */
  function AccountsOf(row: Row): (accounts: seq<Account>)
    ensures forall a :: a in accounts <==> row.source == Some(a) || row.destination == Some(a)
  {
    (if row.source.Some? then [row.source.value] else [])
    + (if row.destination.Some? then [row.destination.value] else [])
  }

  function AccountsOfRows(rows: seq<Row>): RowAccounts {
    if rows == [] then map[]
    else AccountsOfRows(rows[..|rows| - 1])[rows[|rows| - 1].id := AccountsOf(rows[|rows| - 1])]
  }

  function VersionsOfRows(rows: seq<Row>): map<Id, int> {
    if rows == [] then map[]
    else VersionsOfRows(rows[..|rows| - 1])[rows[|rows| - 1].id := rows[|rows| - 1].version]
  }

  function IdsOf(rows: seq<Row>): set<Id> {
    set row | row in rows :: row.id
  }

  lemma IdsOfNext(rows: seq<Row>, i: nat)
    requires i < |rows|
    ensures IdsOf(rows[..i + 1]) == IdsOf(rows[..i]) + {rows[i].id}
  {
    assert rows[..i + 1] == rows[..i] + [rows[i]];
  }

  predicate IsSelected(choice: Choice, id: Id) {
    match choice
    case Filter(excluded, _) => id !in excluded
    case Ids(versions, _) => id in versions
  }

  // ---------------------------------------------------------------------------------------
  // What each handler makes of the selection.
  // ---------------------------------------------------------------------------------------

  function Remembered(choice: Choice, rows: seq<Row>): Choice {
    choice.(rowAccounts := choice.rowAccounts + AccountsOfRows(rows))
  }

  function Toggled(choice: Choice, rows: seq<Row>, checked: bool): Choice {
    match choice
    case Filter(excluded, _) =>
      choice.(excluded := if checked then excluded - IdsOf(rows) else excluded + IdsOf(rows))
    case Ids(versions, _) =>
      choice.(versions := if checked then versions + VersionsOfRows(rows) else versions - IdsOf(rows))
  }

  function AllMatching(choice: Choice): Choice {
    Filter({}, choice.rowAccounts)
  }

  function OnlyThese(choice: Choice, rows: seq<Row>): Choice {
    Ids(VersionsOfRows(rows), choice.rowAccounts)
  }

  /** What the handlers mean: a toggle settles the rows it is given and no others, "all matching"
      selects everything, and "only this page" just the rows on it. None of them forgets a row. */
  lemma HandlersSelect(choice: Choice, rows: seq<Row>, checked: bool, id: Id)
    ensures IsSelected(Toggled(choice, rows, checked), id) <==> if id in IdsOf(rows) then checked else IsSelected(choice, id)
    ensures IsSelected(AllMatching(choice), id)
    ensures IsSelected(OnlyThese(choice, rows), id) <==> id in IdsOf(rows)
    ensures IsSelected(Remembered(choice, rows), id) <==> IsSelected(choice, id)
    ensures choice.rowAccounts == Toggled(choice, rows, checked).rowAccounts == AllMatching(choice).rowAccounts
         == OnlyThese(choice, rows).rowAccounts
  {
    VersionsOfRowsAt(rows);
  }

  predicate DistinctIds(rows: seq<Row>) {
    forall i, j :: 0 <= i < j < |rows| ==> rows[i].id != rows[j].id
  }

  /** The version last given for an id by a list of rows. */
  function LastVersion(rows: seq<Row>, id: Id): Option<int> {
    if rows == [] then None
    else if rows[|rows| - 1].id == id then Some(rows[|rows| - 1].version)
    else LastVersion(rows[..|rows| - 1], id)
  }

  lemma {:induction false} LastVersionOf(rows: seq<Row>, i: nat)
    requires DistinctIds(rows) && i < |rows|
    ensures LastVersion(rows, rows[i].id) == Some(rows[i].version)
  {
    if i < |rows| - 1 {
      LastVersionOf(rows[..|rows| - 1], i);
    }
  }

  lemma {:induction false} VersionsAreLast(rows: seq<Row>, id: Id)
    ensures id in VersionsOfRows(rows) <==> LastVersion(rows, id).Some?
    ensures id in VersionsOfRows(rows) ==> LastVersion(rows, id) == Some(VersionsOfRows(rows)[id])
  {
    if rows != [] { VersionsAreLast(rows[..|rows| - 1], id); }
  }

  /** What is recorded of a row that is ticked is its version, and of the rows that are not, what was. */
  lemma HandlersRecord(choice: Choice, rows: seq<Row>, id: Id)
    requires DistinctIds(rows)
    ensures choice.Ids? ==> forall row :: row in rows ==>
      row.id in Toggled(choice, rows, true).versions && Toggled(choice, rows, true).versions[row.id] == row.version
    ensures choice.Ids? && id !in IdsOf(rows) && id in choice.versions ==>
      && id in Toggled(choice, rows, true).versions && Toggled(choice, rows, true).versions[id] == choice.versions[id]
      && id in Toggled(choice, rows, false).versions && Toggled(choice, rows, false).versions[id] == choice.versions[id]
    ensures forall row :: row in rows ==>
      row.id in OnlyThese(choice, rows).versions && OnlyThese(choice, rows).versions[row.id] == row.version
  {
    VersionsOfRowsAt(rows);
    forall row | row in rows ensures row.id in VersionsOfRows(rows) && VersionsOfRows(rows)[row.id] == row.version {
      var i :| 0 <= i < |rows| && rows[i] == row;
      LastVersionOf(rows, i);
      VersionsAreLast(rows, row.id);
    }
  }

  predicate Touches(accounts: seq<Account>, frozen: set<Account>) {
    exists a :: a in accounts && a in frozen
  }

  predicate FrozenOnScreen(choice: Choice, rows: seq<Row>, frozen: set<Account>) {
    exists row :: row in rows && IsSelected(choice, row.id) && Touches(AccountsOf(row), frozen)
  }

  predicate FrozenRemembered(choice: Choice, frozen: set<Account>) {
    exists id :: id in choice.rowAccounts && IsSelected(choice, id) && Touches(choice.rowAccounts[id], frozen)
  }

  /** The selected rows on screen, then the selected ones remembered. */
  predicate Alarm(choice: Choice, rows: seq<Row>, frozen: set<Account>) {
    FrozenOnScreen(choice, rows, frozen) || FrozenRemembered(choice, frozen)
  }

  /** One of the selection's rows, on screen or remembered, is on this account. */
  predicate NamedBySelection(choice: Choice, rows: seq<Row>, account: Account) {
    || (exists row :: row in rows && IsSelected(choice, row.id) && (row.source == Some(account) || row.destination == Some(account)))
    || (exists id :: id in choice.rowAccounts && IsSelected(choice, id) && account in choice.rowAccounts[id])
  }

  /** The server's count of a filter selection, and the fingerprint of the rows it counted. */
  datatype Preview = Preview(count: nat, fingerprint: string)

  /** What a mass edit asks the server to write: rows named one by one, or a filter less some. */
  datatype BulkSelection =
    | BulkIds(items: set<(Id, int)>)
    | BulkFilter(matching: set<Id>, excluded: set<Id>, expected: Preview)

  predicate Covers(bulk: BulkSelection, id: Id) {
    match bulk
    case BulkIds(items) => exists item :: item in items && item.0 == id
    case BulkFilter(matching, excluded, _) => id in matching && id !in excluded
  }

  // ---------------------------------------------------------------------------------------
  // The handlers.
  // ---------------------------------------------------------------------------------------

  class Browser {
    var choice: Choice
    var items: seq<Row>
    var page: nat
    var sort: string

    constructor (sort: string)
      ensures choice == EMPTY && items == [] && page == 1 && this.sort == sort
    {
      choice, items, page, this.sort := EMPTY, [], 1, sort;
    }

    method ToggleLoadedSelection(checked: bool)
      modifies `choice
      ensures choice == Toggled(old(choice), items, checked)
    {
      if choice.Filter? {
        var excludedIds := ToggleExcluded(choice.excluded, items, checked);
        choice := choice.(excluded := excludedIds);
      } else {
        var versions := ToggleVersions(choice.versions, items, checked);
        choice := choice.(versions := versions);
      }
    }

    static method ToggleExcluded(excluded: set<Id>, rows: seq<Row>, checked: bool) returns (r: set<Id>)
      ensures r == if checked then excluded - IdsOf(rows) else excluded + IdsOf(rows)
    {
      r := excluded;
      for i := 0 to |rows|
        invariant r == if checked then excluded - IdsOf(rows[..i]) else excluded + IdsOf(rows[..i])
      {
        IdsOfNext(rows, i);
        r := if checked then r - {rows[i].id} else r + {rows[i].id};
      }
      assert rows[..|rows|] == rows;
    }

    static method ToggleVersions(versions: map<Id, int>, rows: seq<Row>, checked: bool) returns (r: map<Id, int>)
      ensures r == if checked then versions + VersionsOfRows(rows) else versions - IdsOf(rows)
    {
      r := versions;
      for i := 0 to |rows|
        invariant r == if checked then versions + VersionsOfRows(rows[..i]) else versions - IdsOf(rows[..i])
      {
        var row := rows[i];
        IdsOfNext(rows, i);
        assert rows[..i + 1][..i] == rows[..i];
        r := if checked then r[row.id := row.version] else r - {row.id};
      }
      assert rows[..|rows|] == rows;
    }

    method ToggleTransactionSelection(row: Row, checked: bool)
      modifies `choice
      ensures choice == Toggled(old(choice), [row], checked)
    {
      assert IdsOf([row]) == {row.id};
      assert [row][..0] == [] && VersionsOfRows([row]) == map[row.id := row.version];
      choice :=
        match choice
        case Filter(excluded, _) => choice.(excluded := if checked then excluded - {row.id} else excluded + {row.id})
        case Ids(versions, _) =>
          choice.(versions := if checked then versions[row.id := row.version] else versions - {row.id});
    }

    method RememberLoadedRows()
      modifies `choice
      ensures choice == Remembered(old(choice), items)
    {
      var kept: RowAccounts := map[];
      for i := 0 to |items|
        invariant kept == AccountsOfRows(items[..i])
      {
        assert items[..i + 1][..i] == items[..i];
        kept := kept[items[i].id := AccountsOf(items[i])];
      }
      assert items[..|items|] == items;
      choice := choice.(rowAccounts := choice.rowAccounts + kept);
    }

    method TurnPage(next: nat)
      modifies `choice, `page
      ensures choice == Remembered(old(choice), items) && page == next
    {
      RememberLoadedRows();
      page := next;
    }

    method ApplySort(next: string)
      modifies `choice, `page, `sort
      ensures choice == Remembered(old(choice), items) && page == 1 && sort == next
    {
      RememberLoadedRows();
      sort, page := next, 1;
    }

    method SelectAllMatching()
      modifies `choice
      ensures choice == AllMatching(old(choice))
    {
      choice := Filter({}, choice.rowAccounts);
    }

    method SelectOnlyThisPage()
      modifies `choice
      ensures choice == OnlyThese(old(choice), items)
    {
      var versions: map<Id, int> := map[];
      for i := 0 to |items|
        invariant versions == VersionsOfRows(items[..i])
      {
        assert items[..i + 1][..i] == items[..i];
        versions := versions[items[i].id := items[i].version];
      }
      assert items[..|items|] == items;
      choice := Ids(versions, choice.rowAccounts);
    }

    method FilterChanged()
      modifies `choice, `page
      ensures choice == EMPTY && page == 1
    {
      choice, page := EMPTY, 1;
    }

    /** An account is named exactly when there is one to name, and it is a frozen one. */
    method FrozenInSelection(frozen: set<Account>) returns (account: Option<Account>)
      ensures account.Some? <==> Alarm(choice, items, frozen)
      ensures account.Some? ==> account.value in frozen && NamedBySelection(choice, items, account.value)
    {
      for i := 0 to |items|
        invariant forall row :: row in items[..i] && IsSelected(choice, row.id) ==> !Touches(AccountsOf(row), frozen)
      {
        if IsSelected(choice, items[i].id) {
          account := FrozenAmong(AccountsOf(items[i]), frozen);
          if account.Some? { return; }
        }
      }
      assert items[..|items|] == items;
      var left := choice.rowAccounts.Keys;
      while left != {}
        invariant left <= choice.rowAccounts.Keys
        invariant forall id :: id in choice.rowAccounts && id !in left && IsSelected(choice, id) ==>
                    !Touches(choice.rowAccounts[id], frozen)
        decreases |left|
      {
        var id :| id in left;
        if IsSelected(choice, id) {
          account := FrozenAmong(choice.rowAccounts[id], frozen);
          if account.Some? { return; }
        }
        left := left - {id};
      }
      account := None;
    }

    method FrozenAmong(accounts: seq<Account>, frozen: set<Account>) returns (account: Option<Account>)
      ensures account.Some? <==> Touches(accounts, frozen)
      ensures account.Some? ==> account.value in frozen && account.value in accounts
    {
      for i := 0 to |accounts|
        invariant forall a :: a in accounts[..i] ==> a !in frozen
      {
        if accounts[i] in frozen { return Some(accounts[i]); }
      }
      account := None;
    }

    /** The request names exactly the rows the page calls selected, among those the filter matches: each
        row named singly with the version it was ticked at, a filter with the count the server gave. */
    method BuildBulkSelection(matching: set<Id>, preview: Preview) returns (bulk: BulkSelection)
      ensures forall id :: Covers(bulk, id) <==> IsSelected(choice, id) && (choice.Filter? ==> id in matching)
      ensures bulk.BulkFilter? <==> choice.Filter?
      ensures bulk.BulkFilter? ==> bulk.expected == preview
      ensures bulk.BulkIds? ==> forall item :: item in bulk.items ==> item.0 in choice.versions && item.1 == choice.versions[item.0]
    {
      match choice {
        case Filter(excluded, _) => bulk := BulkFilter(matching, excluded, preview);
        case Ids(versions, _) =>
          bulk := BulkIds(set id | id in versions :: (id, versions[id]));
          assert forall id :: id in versions ==> (id, versions[id]) in bulk.items;
      }
    }
  }

  // ---------------------------------------------------------------------------------------
  // Runs: what is on screen while a page or a filter is on its way.
  // ---------------------------------------------------------------------------------------

  /** The old rows stay on screen until the answer to a new page, order or filter arrives. */
  datatype Fetch = Idle | NewPage | NewFilter

  /** `book` says which accounts each row names, `matching` which rows the current filter takes in,
      `total` how many the answer on screen said it takes in, and `shown` which rows arrived under it
      since the selection was last dropped. How many rows a page holds is left open. */
  datatype State = State(book: map<Id, seq<Account>>, matching: set<Id>, choice: Choice, items: seq<Row>,
                         total: nat, fetch: Fetch, shown: set<Id>)

  datatype Event =
    | Tick(row: Row, checked: bool)
    | ToggleLoaded(checked: bool)
    | SelectAll
    | OnlyPage
    | Clear
    | TurnPage
    | ApplySort
    | ChangeFilter(matching: set<Id>)
    | Arrive(rows: seq<Row>)
    | Reread(rows: seq<Row>)

  function Start(book: map<Id, seq<Account>>, matching: set<Id>): State {
    State(book, matching, EMPTY, [], 0, NewFilter, {})
  }

  /** A page of the current filter's rows, each naming the accounts the book says. */
  predicate IsPage(s: State, rows: seq<Row>) {
    forall row :: row in rows ==> row.id in s.matching && row.id in s.book && s.book[row.id] == AccountsOf(row)
  }

  /** The bar with the two buttons is drawn only beside a selection. */
  predicate HasSelection(choice: Choice) {
    choice.Filter? || choice.versions != map[]
  }

  /** The page buttons are off while a page is on its way; the column headings are not. */
  predicate Enabled(s: State, e: Event) {
    match e
    case Tick(row, _) => row in s.items
    case SelectAll => HasSelection(s.choice) && s.choice.Ids? && s.total > |s.items|
    case OnlyPage => HasSelection(s.choice) && s.choice.Filter?
    case Clear => HasSelection(s.choice)
    case TurnPage => s.fetch.Idle? && s.total > |s.items|
    case Arrive(rows) => !s.fetch.Idle? && IsPage(s, rows)
    case Reread(rows) => s.fetch.Idle? && IsPage(s, rows)
    case _ => true
  }

  function Apply(s: State, e: Event): State {
    match e
    case Tick(row, checked) => s.(choice := Toggled(s.choice, [row], checked))
    case ToggleLoaded(checked) => s.(choice := Toggled(s.choice, s.items, checked))
    case SelectAll => s.(choice := AllMatching(s.choice))
    case OnlyPage => s.(choice := OnlyThese(s.choice, s.items))
    case Clear => s.(choice := EMPTY, shown := if s.fetch.NewFilter? then {} else IdsOf(s.items))
    case TurnPage => s.(choice := Remembered(s.choice, s.items), fetch := NewPage)
    case ApplySort =>
      s.(choice := Remembered(s.choice, s.items), fetch := if s.fetch.NewFilter? then NewFilter else NewPage)
    case ChangeFilter(matching) => s.(matching := matching, choice := EMPTY, fetch := NewFilter, shown := {})
    case Arrive(rows) => s.(items := rows, total := |s.matching|, fetch := Idle, shown := s.shown + IdsOf(rows))
    case Reread(rows) => s.(items := rows, total := |s.matching|, shown := s.shown + IdsOf(rows))
  }

  /** What the page should say: an explicit selection names its rows, and a filter selection holds
      every row shown under the filter and not excluded. */
  predicate Should(s: State, frozen: set<Account>) {
    match s.choice
    case Ids(versions, _) => exists id :: id in versions && id in s.book && Touches(s.book[id], frozen)
    case Filter(excluded, _) =>
      exists id :: id in s.shown && id !in excluded && id in s.book && Touches(s.book[id], frozen)
  }

  predicate Right(s: State, frozen: set<Account>) {
    Alarm(s.choice, s.items, frozen) <==> Should(s, frozen)
  }

  predicate Known(s: State, id: Id) {
    id in IdsOf(s.items) || id in s.choice.rowAccounts
  }

  /** The steps that break the page's memory: with the rows of another filter still on screen,
      ticking one of them or reordering them; clearing the selection while a page is on its way;
      and a re-read that takes away a row nobody turned away from. */
  predicate Calm(s: State, e: Event) {
    && (s.fetch.NewFilter? ==> match e
          case Tick(_, checked) => !checked
          case ToggleLoaded(checked) => !checked
          case ApplySort => false
          case _ => true)
    && (s.fetch.NewPage? ==> !e.Clear?)
    && (e.Reread? ==> IdsOf(s.items) <= IdsOf(e.rows) + s.choice.rowAccounts.Keys)
  }

  ghost predicate Run(s: State, events: seq<Event>, t: State, calm: bool)
    decreases |events|
  {
    if events == [] then t == s
    else Enabled(s, events[0]) && (calm ==> Calm(s, events[0])) && Run(Apply(s, events[0]), events[1..], t, calm)
  }

  lemma {:induction false} AccountsOfRowsAt(rows: seq<Row>, book: map<Id, seq<Account>>)
    requires forall row :: row in rows ==> row.id in book && book[row.id] == AccountsOf(row)
    ensures AccountsOfRows(rows).Keys == IdsOf(rows)
    ensures forall id :: id in AccountsOfRows(rows) ==> id in book && AccountsOfRows(rows)[id] == book[id]
  {
    hide AccountsOf;
    if rows == [] {
    } else {
      var n := |rows| - 1;
      AccountsOfRowsAt(rows[..n], book);
      IdsOfNext(rows, n);
      assert rows[..n + 1] == rows;
    }
  }

  lemma {:induction false} VersionsOfRowsAt(rows: seq<Row>)
    ensures VersionsOfRows(rows).Keys == IdsOf(rows)
  {
    if rows == [] {
    } else {
      var n := |rows| - 1;
      VersionsOfRowsAt(rows[..n]);
      assert rows == rows[..n] + [rows[n]];
      assert IdsOf(rows) == IdsOf(rows[..n]) + {rows[n].id};
    }
  }

  /** On every run, what is on screen and what is remembered agree with the book. */
  ghost predicate Sane(s: State) {
    && (forall row :: row in s.items ==> row.id in s.book && s.book[row.id] == AccountsOf(row))
    && (forall id :: id in s.choice.rowAccounts ==> id in s.book && s.choice.rowAccounts[id] == s.book[id])
    && (s.choice.Ids? ==> s.choice.versions.Keys <= s.book.Keys)
    && s.shown <= s.book.Keys
  }

  /** On a calm run, every row shown is on screen or remembered, and nothing else is chosen or kept. */
  ghost predicate Keeps(s: State) {
    && (forall id :: id in s.shown ==> Known(s, id))
    && s.choice.rowAccounts.Keys <= s.shown
    && (s.choice.Ids? ==> s.choice.versions.Keys <= s.shown)
    && (s.fetch.NewFilter? ==> s.choice.Ids?)
    && (if s.fetch.NewFilter? then s.shown == {} else IdsOf(s.items) <= s.shown)
    && (s.fetch.NewPage? ==> IdsOf(s.items) <= s.choice.rowAccounts.Keys)
  }

  lemma SaneStep(s: State, e: Event)
    requires Sane(s) && Enabled(s, e)
    ensures Sane(Apply(s, e))
  {
    AccountsOfRowsAt(s.items, s.book);
    VersionsOfRowsAt(s.items);
    if e.Tick? { VersionsOfRowsAt([e.row]); }
  }

  lemma KeepsStep(s: State, e: Event)
    requires Sane(s) && Keeps(s) && Enabled(s, e) && Calm(s, e)
    ensures Keeps(Apply(s, e))
  {
    AccountsOfRowsAt(s.items, s.book);
    VersionsOfRowsAt(s.items);
    if e.Tick? { VersionsOfRowsAt([e.row]); }
  }

  lemma {:induction false} EveryRunKeeps(s: State, events: seq<Event>, t: State, calm: bool)
    requires Run(s, events, t, calm) && Sane(s) && (calm ==> Keeps(s))
    ensures Sane(t) && (calm ==> Keeps(t))
    decreases |events|
  {
    hide Sane, Keeps, Apply, Enabled, Calm;
    if events != [] {
      SaneStep(s, events[0]);
      if calm { KeepsStep(s, events[0]); }
      EveryRunKeeps(Apply(s, events[0]), events[1..], t, calm);
    }
  }

  /** The rows ticked over a run, in order, as they were on screen when they were. */
  function Ticked(s: State, events: seq<Event>): seq<Row>
    decreases |events|
  {
    if events == [] then []
    else
      var now := match events[0]
        case Tick(row, checked) => if checked then [row] else []
        case ToggleLoaded(checked) => if checked then s.items else []
        case OnlyPage => s.items
        case _ => [];
      now + (if Enabled(s, events[0]) then Ticked(Apply(s, events[0]), events[1..]) else [])
  }

  ghost predicate Recorded(s: State, log: seq<Row>) {
    s.choice.Ids? ==> forall id :: id in s.choice.versions ==> LastVersion(log, id) == Some(s.choice.versions[id])
  }

  lemma {:induction false} LastVersionAppend(log: seq<Row>, rows: seq<Row>, id: Id)
    ensures LastVersion(log + rows, id) == if LastVersion(rows, id).Some? then LastVersion(rows, id) else LastVersion(log, id)
  {
    if rows == [] {
      assert log + rows == log;
    } else {
      assert (log + rows)[..|log + rows| - 1] == log + rows[..|rows| - 1];
      LastVersionAppend(log, rows[..|rows| - 1], id);
    }
  }

  lemma RecordedStep(s: State, log: seq<Row>, rows: seq<Row>, checked: bool)
    requires Recorded(s, log)
    ensures Recorded(s.(choice := Toggled(s.choice, rows, checked)), if checked then log + rows else log)
    ensures Recorded(s.(choice := OnlyThese(s.choice, rows)), log + rows)
  {
    forall id: Id
      ensures id in VersionsOfRows(rows) ==> LastVersion(log + rows, id) == Some(VersionsOfRows(rows)[id])
      ensures id !in VersionsOfRows(rows) ==> LastVersion(log + rows, id) == LastVersion(log, id)
    {
      VersionsAreLast(rows, id);
      LastVersionAppend(log, rows, id);
    }
  }

  lemma {:induction false} RunRecords(s: State, log: seq<Row>, events: seq<Event>, t: State)
    requires Run(s, events, t, false) && Recorded(s, log)
    ensures Recorded(t, log + Ticked(s, events))
    decreases |events|
  {
    hide Toggled, LastVersion, OnlyThese, VersionsOfRows, IdsOf;
    if events == [] {
      assert log + Ticked(s, events) == log;
    } else {
      var e, n := events[0], Apply(s, events[0]);
      var now := if e.Tick? && e.checked then [e.row] else if e.ToggleLoaded? && e.checked then s.items else if e.OnlyPage? then s.items else [];
      assert Recorded(n, log + now) by { RecordedEvent(s, log, e, now); }
      RunRecords(n, log + now, events[1..], t);
      assert log + Ticked(s, events) == log + now + Ticked(n, events[1..]);
    }
  }

  lemma RecordedEvent(s: State, log: seq<Row>, e: Event, now: seq<Row>)
    requires Recorded(s, log) && Enabled(s, e)
    requires now == if e.Tick? && e.checked then [e.row] else if e.ToggleLoaded? && e.checked then s.items else if e.OnlyPage? then s.items else []
    ensures Recorded(Apply(s, e), log + now)
  {
    hide Toggled, LastVersion, OnlyThese, VersionsOfRows, IdsOf, Enabled;
    match e
    case Tick(row, checked) => RecordedStep(s, log, [row], checked); assert !checked ==> log + now == log;
    case ToggleLoaded(checked) => RecordedStep(s, log, s.items, checked); assert !checked ==> log + now == log;
    case OnlyPage => RecordedStep(s, log, s.items, true);
    case _ => assert log + now == log;
  }

  /** Over every run a row selected by id is held at the version it had on screen when it was last ticked:
      so a mass edit names rows at the versions its person saw. */
  lemma VersionsWereShown(book: map<Id, seq<Account>>, matching: set<Id>, events: seq<Event>, s: State, id: Id)
    requires Run(Start(book, matching), events, s, false) && s.choice.Ids? && id in s.choice.versions
    ensures LastVersion(Ticked(Start(book, matching), events), id) == Some(s.choice.versions[id])
  {
    hide Run, Ticked, LastVersion;
    RunRecords(Start(book, matching), [], events, s);
    assert [] + Ticked(Start(book, matching), events) == Ticked(Start(book, matching), events);
  }

  /** Over every calm run, at every moment of it, the two buttons are held back exactly when a selected
      row shown under the filter touches a frozen account. */
  lemma CheckIsRight(book: map<Id, seq<Account>>, matching: set<Id>, events: seq<Event>, s: State, frozen: set<Account>)
    requires Run(Start(book, matching), events, s, true)
    ensures Right(s, frozen)
  {
    EveryRunKeeps(Start(book, matching), events, s, true);
    hide Run, Enabled, Apply, Calm, Touches;
    if Should(s, frozen) { AlarmWhenShould(s, frozen); }
  }

  lemma AlarmWhenShould(s: State, frozen: set<Account>)
    requires Sane(s) && Keeps(s) && Should(s, frozen)
    ensures Alarm(s.choice, s.items, frozen)
  {
    hide Touches;
    var id :| id in s.shown && IsSelected(s.choice, id) && Touches(s.book[id], frozen);
    if id in IdsOf(s.items) {
      var row :| row in s.items && row.id == id;
      assert FrozenOnScreen(s.choice, s.items, frozen);
    } else {
      assert Known(s, id);
      assert FrozenRemembered(s.choice, frozen);
    }
  }

  /** The selected rows the check looks at, and those it should look at. */
  function Heard(s: State): set<Id> {
    set id | id in s.book && IsSelected(s.choice, id) && Known(s, id)
  }

  function Due(s: State): set<Id> {
    set id | id in s.book && IsSelected(s.choice, id) && (s.choice.Ids? || id in s.shown)
  }

  ghost predicate Named(book: map<Id, seq<Account>>, ids: set<Id>, account: Account) {
    exists id :: id in ids && id in book && account in book[id]
  }

  lemma TouchesNamed(s: State, ids: set<Id>, frozen: set<Account>)
    ensures (exists id :: id in ids && id in s.book && Touches(s.book[id], frozen)) <==>
            exists a :: a in frozen && Named(s.book, ids, a)
  {
    if id :| id in ids && id in s.book && Touches(s.book[id], frozen) {
      var a :| a in s.book[id] && a in frozen;
      assert Named(s.book, ids, a);
    }
    if a :| a in frozen && Named(s.book, ids, a) {
      var id :| id in ids && id in s.book && a in s.book[id];
      assert Touches(s.book[id], frozen);
    }
  }

  lemma AlarmHears(s: State, frozen: set<Account>)
    requires Sane(s)
    ensures Alarm(s.choice, s.items, frozen) <==> exists id :: id in Heard(s) && id in s.book && Touches(s.book[id], frozen)
  {
    hide Touches, AccountsOf;
    if row :| row in s.items && IsSelected(s.choice, row.id) && Touches(AccountsOf(row), frozen) {
      assert row.id in IdsOf(s.items) && row.id in Heard(s);
    }
    if id :| id in Heard(s) && id in s.book && Touches(s.book[id], frozen) {
      if id in IdsOf(s.items) {
        var row :| row in s.items && row.id == id;
        assert FrozenOnScreen(s.choice, s.items, frozen);
      } else {
        assert FrozenRemembered(s.choice, frozen);
      }
    }
  }

  lemma ShouldDue(s: State, frozen: set<Account>)
    requires Sane(s)
    ensures Should(s, frozen) <==> exists id :: id in Due(s) && id in s.book && Touches(s.book[id], frozen)
  {
    hide Touches;
    if s.choice.Ids? {
      assert forall id :: id in Due(s) <==> id in s.choice.versions;
    } else {
      assert forall id :: id in Due(s) <==> id in s.shown && id !in s.choice.excluded;
    }
  }

  /**
   On any run at all, calm or not: the answer is right for every set of frozen accounts exactly when the
   selected rows on screen or remembered name the same accounts as the selected rows that count. With
   rows ticked one by one it can only miss one, never raise a false alarm.
   */
  lemma RightExactly(book: map<Id, seq<Account>>, matching: set<Id>, events: seq<Event>, s: State)
    requires Run(Start(book, matching), events, s, false)
    ensures (forall frozen: set<Account> :: Right(s, frozen)) <==>
            forall a: Account :: Named(s.book, Heard(s), a) <==> Named(s.book, Due(s), a)
    ensures forall a: Account :: Right(s, OneFrozen(a)) <==> (Named(s.book, Heard(s), a) <==> Named(s.book, Due(s), a))
    ensures forall frozen: set<Account> :: s.choice.Ids? && Alarm(s.choice, s.items, frozen) ==> Should(s, frozen)
  {
    EveryRunKeeps(Start(book, matching), events, s, false);
    hide Run, Sane, Alarm, Should, Named, Heard, Due, Touches;
    forall frozen: set<Account>
      ensures Alarm(s.choice, s.items, frozen) <==> exists a :: a in frozen && Named(s.book, Heard(s), a)
      ensures Should(s, frozen) <==> exists a :: a in frozen && Named(s.book, Due(s), a)
    {
      AlarmHears(s, frozen);
      ShouldDue(s, frozen);
      TouchesNamed(s, Heard(s), frozen);
      TouchesNamed(s, Due(s), frozen);
    }
    forall a: Account
      ensures Right(s, OneFrozen(a)) <==> (Named(s.book, Heard(s), a) <==> Named(s.book, Due(s), a))
    {
      assert forall b :: b in OneFrozen(a) <==> b == a;
    }
    if s.choice.Ids? { HeardIsDue(s); }
  }

  function OneFrozen(account: Account): set<Account> {
    {account}
  }

  lemma HeardIsDue(s: State)
    requires s.choice.Ids?
    ensures forall a: Account :: Named(s.book, Heard(s), a) ==> Named(s.book, Due(s), a)
  {
  }

  lemma {:induction false} RunThen(s: State, events: seq<Event>, t: State, e: Event)
    requires Run(s, events, t, false) && Enabled(t, e)
    ensures Run(s, events + [e], Apply(t, e), false)
    decreases |events|
  {
    hide Apply, Enabled;
    if events == [] {
      assert [e][1..] == [];
    } else {
      RunThen(Apply(s, events[0]), events[1..], t, e);
      assert (events + [e])[1..] == events[1..] + [e];
    }
  }

  const X := Row("x", 1, Some("A"), None)
  const Y := Row("y", 1, Some("B"), None)
  const BOOK: map<Id, seq<Account>> := map["x" := ["A"], "y" := ["B"], "z" := ["C"]]
  const ALL: set<Id> := {"x", "y", "z"}
  const LATER: set<Id> := {"y", "z"}

  /** Each step left out of a calm run can make the answer wrong: two ticked rows forgotten, a
      row of an earlier filter still counted, and a ticked row pushed off the page unseen. */
  datatype Slip = TickedOldRow | ReorderedOldRows | ClearedMidTurn | PushedAway

  function SlipEvents(slip: Slip): seq<Event> {
    match slip
    case TickedOldRow => [Arrive([X]), ChangeFilter(LATER), Tick(X, true), Arrive([Y])]
    case ReorderedOldRows => [Arrive([X]), ChangeFilter(LATER), ApplySort, Arrive([Y]), Tick(Y, true), SelectAll]
    case ClearedMidTurn => [Arrive([X]), Tick(X, true), TurnPage, Clear, Tick(X, true), Arrive([Y])]
    case PushedAway => [Arrive([X]), Tick(X, true), Reread([Y])]
  }

  lemma Go(start: State, events: seq<Event>, s: State, e: Event) returns (longer: seq<Event>, n: State)
    requires Run(start, events, s, false) && Enabled(s, e)
    ensures Run(start, longer, n, false) && longer == events + [e] && n == Apply(s, e)
  {
    RunThen(start, events, s, e);
    longer, n := events + [e], Apply(s, e);
  }

  lemma RowsAlone()
    ensures IdsOf([X]) == {"x"} && IdsOf([Y]) == {"y"}
    ensures AccountsOfRows([X]) == map["x" := ["A"]]
    ensures VersionsOfRows([X]) == map["x" := 1] && VersionsOfRows([Y]) == map["y" := 1]
    ensures AccountsOf(X) == ["A"] && AccountsOf(Y) == ["B"]
    ensures |ALL| == 3 && |LATER| == 2
  {
    assert [X][..0] == [] && AccountsOf(X) == ["A"] && AccountsOf(Y) == ["B"];
    assert [Y][..0] == [];
    assert VersionsOfRows([X][..0]) == map[] && AccountsOfRows([X][..0]) == map[] && VersionsOfRows([Y][..0]) == map[];
  }

  lemma FirstPage() returns (events: seq<Event>, s: State)
    ensures Run(Start(BOOK, ALL), events, s, false)
    ensures events == [Arrive([X])] && s == State(BOOK, ALL, EMPTY, [X], 3, Idle, {"x"})
  {
    RowsAlone();
    var start := Start(BOOK, ALL);
    events, s := Go(start, [], start, Arrive([X]));
  }

  lemma TickedOldRowRun() returns (s: State)
    ensures Run(Start(BOOK, ALL), SlipEvents(TickedOldRow), s, false)
    ensures s == State(BOOK, LATER, Ids(map["x" := 1], map[]), [Y], 2, Idle, {"y"})
  {
    hide Run, AccountsOfRows, VersionsOfRows, AccountsOf, IdsOf;
    RowsAlone();
    var start := Start(BOOK, ALL);
    var events, n := FirstPage();
    events, n := Go(start, events, n, ChangeFilter(LATER));
    events, n := Go(start, events, n, Tick(X, true));
    assert n.choice.versions == map["x" := 1];
    assert n == State(BOOK, LATER, Ids(map["x" := 1], map[]), [X], 3, NewFilter, {});
    events, s := Go(start, events, n, Arrive([Y]));
    assert events == SlipEvents(TickedOldRow);
  }

  lemma ReorderedOldRowsRun() returns (s: State)
    ensures Run(Start(BOOK, ALL), SlipEvents(ReorderedOldRows), s, false)
    ensures s == State(BOOK, LATER, Filter({}, map["x" := ["A"]]), [Y], 2, Idle, {"y"})
  {
    hide Run, AccountsOfRows, VersionsOfRows, AccountsOf, IdsOf;
    RowsAlone();
    var start := Start(BOOK, ALL);
    var events, n := FirstPage();
    events, n := Go(start, events, n, ChangeFilter(LATER));
    events, n := Go(start, events, n, ApplySort);
    assert n.choice.rowAccounts == map["x" := ["A"]];
    assert n == State(BOOK, LATER, Ids(map[], map["x" := ["A"]]), [X], 3, NewFilter, {});
    events, n := Go(start, events, n, Arrive([Y]));
    events, n := Go(start, events, n, Tick(Y, true));
    assert n.choice.versions == map["y" := 1];
    assert n == State(BOOK, LATER, Ids(map["y" := 1], map["x" := ["A"]]), [Y], 2, Idle, {"y"});
    assert "y" in n.choice.versions;
    events, s := Go(start, events, n, SelectAll);
    assert events == SlipEvents(ReorderedOldRows);
  }

  lemma ClearedMidTurnRun() returns (s: State)
    ensures Run(Start(BOOK, ALL), SlipEvents(ClearedMidTurn), s, false)
    ensures s == State(BOOK, ALL, Ids(map["x" := 1], map[]), [Y], 3, Idle, {"x", "y"})
  {
    hide Run, AccountsOfRows, VersionsOfRows, AccountsOf, IdsOf;
    RowsAlone();
    var start := Start(BOOK, ALL);
    var events, n := FirstPage();
    events, n := Go(start, events, n, Tick(X, true));
    assert n == State(BOOK, ALL, Ids(map["x" := 1], map[]), [X], 3, Idle, {"x"}) by { assert n.choice.versions == map["x" := 1]; }
    events, n := Go(start, events, n, TurnPage);
    assert "x" in n.choice.versions;
    events, n := Go(start, events, n, Clear);
    assert n == State(BOOK, ALL, EMPTY, [X], 3, NewPage, {"x"});
    events, n := Go(start, events, n, Tick(X, true));
    assert n.choice.versions == map["x" := 1];
    assert n == State(BOOK, ALL, Ids(map["x" := 1], map[]), [X], 3, NewPage, {"x"});
    events, s := Go(start, events, n, Arrive([Y]));
    assert events == SlipEvents(ClearedMidTurn);
  }

  lemma PushedAwayRun() returns (s: State)
    ensures Run(Start(BOOK, ALL), SlipEvents(PushedAway), s, false)
    ensures s == State(BOOK, ALL, Ids(map["x" := 1], map[]), [Y], 3, Idle, {"x", "y"})
  {
    hide Run, AccountsOfRows, VersionsOfRows, AccountsOf, IdsOf;
    RowsAlone();
    var start := Start(BOOK, ALL);
    var events, n := FirstPage();
    events, n := Go(start, events, n, Tick(X, true));
    assert n.choice.versions == map["x" := 1];
    assert n == State(BOOK, ALL, Ids(map["x" := 1], map[]), [X], 3, Idle, {"x"});
    events, s := Go(start, events, n, Reread([Y]));
    assert events == SlipEvents(PushedAway);
  }

  /** In all four the row of account A is the difference: it should hold the buttons back and does not,
      or does and should not. */
  lemma SlipsAreWrong(slip: Slip) returns (s: State)
    ensures Run(Start(BOOK, ALL), SlipEvents(slip), s, false)
    ensures HasSelection(s.choice) && !Right(s, OneFrozen("A"))
    ensures Should(s, OneFrozen("A")) <==> !slip.ReorderedOldRows?
  {
    hide Run, SlipEvents;
    match slip {
      case TickedOldRow => s := TickedOldRowRun();
      case ReorderedOldRows => s := ReorderedOldRowsRun();
      case ClearedMidTurn => s := ClearedMidTurnRun();
      case PushedAway => s := PushedAwayRun();
    }
    RowsAlone();
    assert Touches(BOOK["x"], OneFrozen("A")) && !Touches(BOOK["y"], OneFrozen("A"));
    assert Touches(AccountsOf(X), OneFrozen("A")) && !Touches(AccountsOf(Y), OneFrozen("A"));
    hide Touches;
    if slip.ReorderedOldRows? {
      assert FrozenRemembered(s.choice, OneFrozen("A")) by { assert "x" in s.choice.rowAccounts; }
    } else {
      assert "x" in s.choice.versions;
    }
  }
}
