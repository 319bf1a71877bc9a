/**
 The server half of importing a file in parts: what one ledger holds of the file's rows, the stored
 answers that make a request replay, and the one atomic write of a part.
 */
module LedgerServer {
  import opened Options

  /** The id a row is recognized by, in the books and in Staged alike. */
  type Origin = string

  datatype Mode = Add | Move

  /** One part of a file: its live and deleted entries, its staged rows and its count of budget amounts. */
  datatype Part = Part(live: seq<Origin>, deleted: seq<Origin>, staged: seq<Origin>, budgetAmounts: nat)

  /** Everything a request carries besides its key. */
  datatype Body = Body(mode: Mode, part: Part, index: nat, count: nat, answers: string)

  /** A part's key, `attempt-index`, and the request sent under it. */
  datatype Key = Key(attempt: nat, index: nat)
  datatype Request = Request(key: Key, body: Body)

  /** What a part did: the rows it wrote to the books and to Staged. */
  datatype Result = Result(index: nat, entries: seq<Origin>, staged: seq<Origin>)

  datatype Reply = Wrote(result: Result) | Refused(byBalances: bool)

  /** A stored answer, found again by the operation and the key it was given. */
  datatype Slot = Slot(mode: Mode, key: Key)
  datatype Record = Record(body: Body, result: Result)

  /**
   `books` and `queue` hold the rows the ledger has, by origin. The last five fields are history:
   every row that ever arrived, every row a person discarded from Staged, and per slot how often a
   part was written under it, what had been discarded when it last was, and how often its stored
   answer was cleared away by age.
   */
  datatype Ledger = Ledger(
    books: multiset<Origin>, queue: multiset<Origin>, records: map<Slot, Record>,
    arrived: multiset<Origin>, discarded: multiset<Origin>,
    applied: multiset<Slot>, appliedAt: map<Slot, multiset<Origin>>, expired: multiset<Slot>)

  predicate Distinct(rows: seq<Origin>) {
    forall i, j :: 0 <= i < j < |rows| ==> rows[i] != rows[j]
  }

  function AllRows(part: Part): seq<Origin> {
    part.live + part.deleted + part.staged
  }

  /** The rows bringing the part in would bring: an add leaves deleted entries where they are. */
  function Brought(mode: Mode, part: Part): seq<Origin> {
    if mode == Move then AllRows(part) else part.live + part.staged
  }

  predicate Found(l: Ledger, o: Origin) {
    o in l.books || o in l.queue
  }

  /** Here, or brought in once and since discarded by somebody. */
  predicate Known(l: Ledger, o: Origin) {
    Found(l, o) || o in l.discarded
  }

  /** Every entry of the part, live or deleted, is in the books. */
  ghost predicate EntriesIn(l: Ledger, part: Part) {
    forall o :: o in part.live + part.deleted ==> o in l.books
  }

  /** The rows of a list that are nowhere in this ledger. */
  function Missing(l: Ledger, rows: seq<Origin>): (m: seq<Origin>)
    ensures forall o :: o in m <==> o in rows && !Found(l, o)
    ensures Distinct(rows) ==> Distinct(m)
  {
    if rows == [] then []
    else
      var rest := Missing(l, rows[1..]);
      if Found(l, rows[0]) then rest else [rows[0]] + rest
  }

  /** Entries of the part that are here only as a row waiting in Staged. */
  function Waiting(l: Ledger, part: Part): set<Origin> {
    set o | o in part.live + part.deleted && o in l.queue && o !in l.books
  }

  // ---------------------------------------------------------------- one part, written whole

  /** Staged rows and, in an add, live entries go to the queue; a move writes entries to the books. */
  function ResultOf(l: Ledger, body: Body): Result {
    if body.mode == Move
    then Result(body.index, Missing(l, body.part.live + body.part.deleted), Missing(l, body.part.staged))
    else Result(body.index, [], Missing(l, body.part.live + body.part.staged))
  }

  function WriteRows(l: Ledger, result: Result): Ledger {
    l.(books := l.books + multiset(result.entries),
       queue := l.queue + multiset(result.staged),
       arrived := l.arrived + multiset(result.entries) + multiset(result.staged))
  }

  /** The answer stored in the transaction that wrote the part. */
  function StoreAnswer(l: Ledger, slot: Slot, record: Record): Ledger {
    l.(records := l.records[slot := record], applied := l.applied + multiset{slot}, appliedAt := l.appliedAt[slot := l.discarded])
  }

  /** What the planner under the locks makes of a part, beyond the rules modelled here. */
  datatype Verdict = Accepts | Refuses | BalancesDiffer

  /** Where a request's answer is stored. */
  function SlotOf(r: Request): Slot {
    Slot(r.body.mode, r.key)
  }

  function Handle(l: Ledger, r: Request, verdict: Verdict): (Ledger, Reply) {
    var slot := Slot(r.body.mode, r.key);
    if !Distinct(AllRows(r.body.part)) then (l, Refused(false))
    else if slot in l.records then
      if l.records[slot].body == r.body then (l, Wrote(l.records[slot].result)) else (l, Refused(false))
    else if r.body.mode == Move && Waiting(l, r.body.part) != {} then (l, Refused(false))
    else if verdict == Refuses then (l, Refused(false))
    else if verdict == BalancesDiffer then (l, Refused(true))
    else
      var result := ResultOf(l, r.body);
      (StoreAnswer(WriteRows(l, result), slot, Record(r.body, result)), Wrote(result))
  }

  // ---------------------------------------------------------------- what people and time do to the ledger

  function CommitRow(l: Ledger, o: Origin): Ledger {
    if o in l.queue && o !in l.books then l.(queue := l.queue - multiset{o}, books := l.books + multiset{o}) else l
  }

  function DiscardRow(l: Ledger, o: Origin): Ledger {
    if o in l.queue then l.(queue := l.queue - multiset{o}, discarded := l.discarded + multiset{o}) else l
  }

  function ExpireAnswer(l: Ledger, slot: Slot): Ledger {
    if slot in l.records then l.(records := l.records - {slot}, expired := l.expired + multiset{slot}) else l
  }

  // ---------------------------------------------------------------- the preview of a part

  /** What a preview answers of a part; `discards`, what had been discarded when it was read, is history. */
  datatype Facts = Facts(alreadyHere: nat, deletedAlreadyHere: nat, stagedAlreadyHere: nat, waiting: nat,
                         discards: multiset<Origin>)

  function FoundCount(l: Ledger, rows: seq<Origin>): (n: nat)
    ensures n <= |rows|
  {
    if rows == [] then 0 else (if Found(l, rows[0]) then 1 else 0) + FoundCount(l, rows[1..])
  }

  function Preview(l: Ledger, part: Part): Facts {
    Facts(FoundCount(l, part.live), FoundCount(l, part.deleted), FoundCount(l, part.staged), |Waiting(l, part)|, l.discarded)
  }

  // ---------------------------------------------------------------- what every change keeps

  /** At most one row of an origin, and every arrival of it accounted for. */
  ghost predicate RowSound(l: Ledger, o: Origin) {
    l.books[o] + l.queue[o] <= 1 && l.arrived[o] == l.books[o] + l.queue[o] + l.discarded[o]
  }

  /** One writing under a slot for each answer it still has or ever had. */
  ghost predicate SlotSound(l: Ledger, slot: Slot) {
    && l.applied[slot] == l.expired[slot] + (if slot in l.records then 1 else 0)
    && (slot in l.appliedAt <==> l.applied[slot] > 0)
  }

  ghost predicate Sound(l: Ledger) {
    (forall o: Origin :: RowSound(l, o)) && (forall slot: Slot :: SlotSound(l, slot))
  }

  /** An entry in the books stays there, what was known stays known, and only a discard takes a row away. */
  ghost predicate RowGrows(before: Ledger, after: Ledger, o: Origin) {
    && before.books[o] <= after.books[o]
    && before.discarded[o] <= after.discarded[o]
    && (Known(before, o) ==> Known(after, o))
    && (Found(before, o) && after.discarded[o] == before.discarded[o] ==> Found(after, o))
  }

  ghost predicate Grows(before: Ledger, after: Ledger) {
    forall o: Origin :: RowGrows(before, after, o)
  }

  lemma {:induction false} DistinctCount(rows: seq<Origin>, o: Origin)
    requires Distinct(rows)
    ensures multiset(rows)[o] == if o in rows then 1 else 0
  {
    if rows != [] {
      assert rows == [rows[0]] + rows[1..];
      DistinctCount(rows[1..], o);
    }
  }

  lemma DistinctSplit(a: seq<Origin>, b: seq<Origin>)
    requires Distinct(a + b)
    ensures Distinct(a) && Distinct(b) && forall o :: o in a ==> o !in b
  {
    var s := a + b;
    assert forall i :: 0 <= i < |a| ==> s[i] == a[i];
    assert forall i :: 0 <= i < |b| ==> s[|a| + i] == b[i];
  }

  lemma DistinctKeep(a: seq<Origin>, b: seq<Origin>, c: seq<Origin>)
    requires Distinct(a + b + c)
    ensures Distinct(a + b) && Distinct(a + c) && Distinct(c)
    ensures forall o :: o in a + b ==> o !in c
  {
    DistinctSplit(a + b, c);
    DistinctSplit(a, b);
    var s := a + b + c;
    assert forall i :: 0 <= i < |a| ==> s[i] == a[i];
    assert forall i :: 0 <= i < |c| ==> s[|a| + |b| + i] == c[i];
  }

  /** What a part writes of one row: nothing if it is here, at most one if not, and one if the part brings it. */
  lemma ResultRow(l: Ledger, body: Body, o: Origin)
    requires Distinct(AllRows(body.part))
    ensures var r := ResultOf(l, body);
            && multiset(r.entries)[o] + multiset(r.staged)[o] <= (if Found(l, o) then 0 else 1)
            && (o in Brought(body.mode, body.part) ==> Found(l, o) || o in r.entries || o in r.staged)
  {
    var p, r := body.part, ResultOf(l, body);
    DistinctKeep(p.live, p.deleted, p.staged);
    DistinctCount(r.entries, o);
    DistinctCount(r.staged, o);
  }

  /** Writing rows that are not here, none of them twice, to where they go. */
  lemma WriteRowSound(l: Ledger, r: Result, o: Origin)
    requires RowSound(l, o) && multiset(r.entries)[o] + multiset(r.staged)[o] <= if Found(l, o) then 0 else 1
    ensures RowSound(WriteRows(l, r), o) && RowGrows(l, WriteRows(l, r), o)
    ensures o in r.entries || o in r.staged || Found(l, o) ==> Found(WriteRows(l, r), o)
  {
    var w := WriteRows(l, r);
    assert w.books[o] == l.books[o] + multiset(r.entries)[o];
    assert w.queue[o] == l.queue[o] + multiset(r.staged)[o];
    assert w.arrived[o] == l.arrived[o] + multiset(r.entries)[o] + multiset(r.staged)[o];
  }

  lemma WriteKeepsSound(l: Ledger, body: Body)
    requires Sound(l) && Distinct(AllRows(body.part))
    ensures var w := WriteRows(l, ResultOf(l, body));
            && (forall o :: RowSound(w, o)) && Grows(l, w)
            && (forall o :: o in Brought(body.mode, body.part) ==> Found(w, o))
  {
    hide ResultOf, Brought, AllRows, Distinct, WriteRows, RowSound, RowGrows;
    var r := ResultOf(l, body);
    var w := WriteRows(l, r);
    forall o: Origin ensures RowSound(w, o) && RowGrows(l, w, o) {
      assert RowSound(l, o);
      ResultRow(l, body, o);
      WriteRowSound(l, r, o);
    }
    forall o | o in Brought(body.mode, body.part) ensures Found(w, o) {
      assert RowSound(l, o);
      ResultRow(l, body, o);
      WriteRowSound(l, r, o);
    }
  }

  lemma StoreKeepsRow(before: Ledger, l: Ledger, slot: Slot, record: Record, o: Origin)
    requires RowSound(l, o) && RowGrows(before, l, o)
    ensures var s := StoreAnswer(l, slot, record); RowSound(s, o) && RowGrows(before, s, o) && (Found(l, o) ==> Found(s, o))
  {
  }

  lemma StoreKeepsSlot(l: Ledger, slot: Slot, record: Record, other: Slot)
    requires slot !in l.records && SlotSound(l, other)
    ensures SlotSound(StoreAnswer(l, slot, record), other)
  {
  }

  /** Handling a request keeps the ledger sound. */
  lemma HandleKeepsSound(l: Ledger, r: Request, verdict: Verdict)
    requires Sound(l)
    ensures Sound(Handle(l, r, verdict).0) && Grows(l, Handle(l, r, verdict).0)
  {
    hide ResultOf, WriteRows, AllRows, Distinct, Waiting, RowSound, SlotSound;
    var slot := Slot(r.body.mode, r.key);
    if Distinct(AllRows(r.body.part)) && slot !in l.records && Handle(l, r, verdict).1.Wrote? {
      HandleBrings(l, r, verdict);
    }
  }

  /** A part that is written: everything it brings is here afterward, and its answer is stored. */
  lemma HandleBrings(l: Ledger, r: Request, verdict: Verdict)
    requires Sound(l) && Slot(r.body.mode, r.key) !in l.records
    ensures var (after, reply) := Handle(l, r, verdict);
            reply.Wrote? ==>
              && reply.result.index == r.body.index
              && after.records == l.records[Slot(r.body.mode, r.key) := Record(r.body, reply.result)]
              && after.appliedAt == l.appliedAt[SlotOf(r) := after.discarded]
              && Distinct(AllRows(r.body.part)) && Sound(after) && Grows(l, after)
              && (forall o :: o in Brought(r.body.mode, r.body.part) ==> Found(after, o))
              && (r.body.mode == Move ==> EntriesIn(after, r.body.part))
    ensures !Handle(l, r, verdict).1.Wrote? ==> Handle(l, r, verdict).0 == l
  {
    hide WriteRows, AllRows, Distinct, Waiting, RowSound, SlotSound, RowGrows, Found, Brought;
    var slot := Slot(r.body.mode, r.key);
    var result := ResultOf(l, r.body);
    var w := WriteRows(l, result);
    if Distinct(AllRows(r.body.part)) {
      WriteKeepsSound(l, r.body);
      WriteKeepsSlots(l, result);
      var after := StoreAnswer(w, slot, Record(r.body, result));
      forall o: Origin ensures RowSound(after, o) && RowGrows(l, after, o) && (Found(w, o) ==> Found(after, o)) {
        assert RowSound(w, o) && RowGrows(l, w, o);
        StoreKeepsRow(l, w, slot, Record(r.body, result), o);
      }
      forall other: Slot ensures SlotSound(after, other) {
        assert SlotSound(l, other);
        StoreKeepsSlot(w, slot, Record(r.body, result), other);
      }
      if r.body.mode == Move && Waiting(l, r.body.part) == {} { EntriesWritten(l, r.body); }
    }
  }

  /** With none of a part's entries waiting in Staged, writing a move's part leaves them all in the books. */
  lemma EntriesWritten(l: Ledger, body: Body)
    requires body.mode == Move && Waiting(l, body.part) == {}
    ensures EntriesIn(WriteRows(l, ResultOf(l, body)), body.part)
  {
    var r := ResultOf(l, body);
    hide AllRows, Distinct, ResultOf;
    forall o | o in body.part.live + body.part.deleted ensures o in WriteRows(l, r).books {
      if !Found(l, o) {
        assert o in r.entries by { EntryListed(l, body, o); }
      } else {
        assert o !in Waiting(l, body.part);
      }
    }
  }

  lemma EntryListed(l: Ledger, body: Body, o: Origin)
    requires body.mode == Move && o in body.part.live + body.part.deleted && !Found(l, o)
    ensures o in ResultOf(l, body).entries
  {
  }

  /** Which rows of a part go where: a move posts its entries to the books and stages only the file's staged
      rows, an add stages its live entries with them and posts nothing; and only rows nowhere here are written. */
  predicate GoesToBooks(mode: Mode, part: Part, o: Origin) {
    mode == Move && o in part.live + part.deleted
  }

  predicate GoesToQueue(mode: Mode, part: Part, o: Origin) {
    o in part.staged || (mode == Add && o in part.live)
  }

  /**
   A part that is written, row by row: the books gain the entries the answer lists, which are those of the
   part nowhere here before, and the queue the staged rows it lists; each goes to one of the two, once.
   */
  lemma HandleWrites(l: Ledger, r: Request, verdict: Verdict, o: Origin)
    requires Sound(l) && SlotOf(r) !in l.records && Handle(l, r, verdict).1.Wrote?
    ensures var (after, reply) := Handle(l, r, verdict);
      && after.books == l.books + multiset(reply.result.entries)
      && after.queue == l.queue + multiset(reply.result.staged)
      && multiset(reply.result.entries)[o] == (if GoesToBooks(r.body.mode, r.body.part, o) && !Found(l, o) then 1 else 0)
      && multiset(reply.result.staged)[o] == (if GoesToQueue(r.body.mode, r.body.part, o) && !Found(l, o) then 1 else 0)
      && (GoesToBooks(r.body.mode, r.body.part, o) && !Found(l, o) ==> o in after.books && o !in after.queue)
      && (GoesToQueue(r.body.mode, r.body.part, o) && !Found(l, o) ==> o in after.queue && o !in after.books)
      && (r.body.mode == Add ==> after.books == l.books)
  {
    hide Sound, Waiting, AllRows, Distinct, ResultOf;
    ResultListed(l, r.body, o);
    var result := ResultOf(l, r.body);
    assert r.body.mode == Add ==> result.entries == [] by { AddPostsNothing(l, r.body); }
  }

  /** When a request is written, and why it is refused: a repeated origin, a key used for another body, an
      entry of a move that only waits in Staged, or the planner, whose refusal for balances is told apart. */
  lemma HandleDecides(l: Ledger, r: Request, verdict: Verdict)
    ensures var reply := Handle(l, r, verdict).1;
            var waits := exists o :: o in r.body.part.live + r.body.part.deleted && o in l.queue && o !in l.books;
      && (reply.Wrote? <==>
            && Distinct(AllRows(r.body.part))
            && (if SlotOf(r) in l.records then l.records[SlotOf(r)].body == r.body
                else (r.body.mode == Add || !waits) && verdict == Accepts))
      && (reply == Refused(true) <==>
            && Distinct(AllRows(r.body.part)) && SlotOf(r) !in l.records
            && (r.body.mode == Add || !waits) && verdict == BalancesDiffer)
  {
    hide Distinct, AllRows, ResultOf;
    var w := Waiting(l, r.body.part);
    if o :| o in r.body.part.live + r.body.part.deleted && o in l.queue && o !in l.books { assert o in w; }
    if o :| o in w { assert o in r.body.part.live + r.body.part.deleted; }
  }

  lemma AddPostsNothing(l: Ledger, body: Body)
    ensures body.mode == Add ==> ResultOf(l, body).entries == []
  {
  }

  lemma ResultListed(l: Ledger, body: Body, o: Origin)
    requires Distinct(AllRows(body.part))
    ensures var result := ResultOf(l, body);
      && multiset(result.entries)[o] == (if GoesToBooks(body.mode, body.part, o) && !Found(l, o) then 1 else 0)
      && multiset(result.staged)[o] == (if GoesToQueue(body.mode, body.part, o) && !Found(l, o) then 1 else 0)
      && !(GoesToBooks(body.mode, body.part, o) && GoesToQueue(body.mode, body.part, o))
  {
    var p, result := body.part, ResultOf(l, body);
    DistinctKeep(p.live, p.deleted, p.staged);
    DistinctCount(result.entries, o);
    DistinctCount(result.staged, o);
  }

  lemma WriteKeepsSlots(l: Ledger, result: Result)
    ensures WriteRows(l, result).records == l.records && WriteRows(l, result).appliedAt == l.appliedAt
    ensures forall slot: Slot :: SlotSound(l, slot) ==> SlotSound(WriteRows(l, result), slot)
  {
  }

  /** A part sent again under its key while its answer is stored gets that answer, and writes nothing. */
  lemma ReplayAnswers(l: Ledger, r: Request, verdict: Verdict, again: Verdict)
    ensures var (after, reply) := Handle(l, r, verdict);
            reply.Wrote? ==> Handle(after, r, again) == (after, reply)
  {
  }

  /** Committing, discarding and clearing answers away keep a row and a slot sound. */
  lemma PersonCommits(l: Ledger, o: Origin, row: Origin, slot: Slot)
    requires RowSound(l, row) && SlotSound(l, slot)
    ensures RowSound(CommitRow(l, o), row) && RowGrows(l, CommitRow(l, o), row) && SlotSound(CommitRow(l, o), slot)
  {
  }

  lemma PersonDiscards(l: Ledger, o: Origin, row: Origin, slot: Slot)
    requires RowSound(l, row) && SlotSound(l, slot)
    ensures RowSound(DiscardRow(l, o), row) && RowGrows(l, DiscardRow(l, o), row) && SlotSound(DiscardRow(l, o), slot)
  {
  }

  lemma PeopleKeep(l: Ledger, o: Origin, cleared: Slot, row: Origin, slot: Slot)
    requires RowSound(l, row) && SlotSound(l, slot)
    ensures RowSound(CommitRow(l, o), row) && RowGrows(l, CommitRow(l, o), row) && SlotSound(CommitRow(l, o), slot)
    ensures RowSound(DiscardRow(l, o), row) && RowGrows(l, DiscardRow(l, o), row) && SlotSound(DiscardRow(l, o), slot)
    ensures RowSound(ExpireAnswer(l, cleared), row) && RowGrows(l, ExpireAnswer(l, cleared), row)
    ensures SlotSound(ExpireAnswer(l, cleared), slot)
  {
    hide CommitRow, DiscardRow;
    PersonCommits(l, o, row, slot);
    PersonDiscards(l, o, row, slot);
  }

  lemma PeopleKeepSound(l: Ledger, o: Origin, cleared: Slot)
    requires Sound(l)
    ensures Sound(CommitRow(l, o)) && Grows(l, CommitRow(l, o))
    ensures Sound(DiscardRow(l, o)) && Grows(l, DiscardRow(l, o))
    ensures Sound(ExpireAnswer(l, cleared)) && Grows(l, ExpireAnswer(l, cleared))
  {
    hide RowSound, SlotSound, RowGrows, CommitRow, DiscardRow, ExpireAnswer;
    assert SlotSound(l, cleared) && RowSound(l, o);
    forall row: Origin
      ensures RowSound(CommitRow(l, o), row) && RowGrows(l, CommitRow(l, o), row)
      ensures RowSound(DiscardRow(l, o), row) && RowGrows(l, DiscardRow(l, o), row)
      ensures RowSound(ExpireAnswer(l, cleared), row) && RowGrows(l, ExpireAnswer(l, cleared), row)
    {
      assert RowSound(l, row);
      PeopleKeep(l, o, cleared, row, cleared);
    }
    forall slot: Slot
      ensures SlotSound(CommitRow(l, o), slot) && SlotSound(DiscardRow(l, o), slot) && SlotSound(ExpireAnswer(l, cleared), slot)
    {
      assert SlotSound(l, slot);
      PeopleKeep(l, o, cleared, o, slot);
    }
  }

  /** A waiting row committed is in the books alone, one discarded is nowhere; every other row is where it was. */
  lemma PeopleMove(l: Ledger, o: Origin, row: Origin)
    requires Sound(l)
    ensures o in l.queue ==> o in CommitRow(l, o).books && o !in CommitRow(l, o).queue && !Found(DiscardRow(l, o), o)
    ensures o !in l.queue ==> CommitRow(l, o) == l && DiscardRow(l, o) == l
    ensures row != o ==> CommitRow(l, o).books[row] == DiscardRow(l, o).books[row] == l.books[row]
    ensures row != o ==> CommitRow(l, o).queue[row] == DiscardRow(l, o).queue[row] == l.queue[row]
  {
    hide SlotSound;
    assert RowSound(l, o);
  }

  // ---------------------------------------------------------------- what equal counts mean

  lemma {:induction false} FoundAll(l: Ledger, rows: seq<Origin>)
    ensures FoundCount(l, rows) == |rows| <==> forall o :: o in rows ==> Found(l, o)
  {
    if rows != [] {
      FoundAll(l, rows[1..]);
      assert rows == [rows[0]] + rows[1..];
    }
  }

  /** Every row of the part is here by origin, none of its entries only waits, and it carries no budget amount. */
  ghost predicate WhollyIn(l: Ledger, part: Part) {
    && EntriesIn(l, part)
    && (forall o :: o in part.staged ==> Found(l, o))
    && part.budgetAmounts == 0
  }

  lemma PreviewCounts(l: Ledger, part: Part)
    ensures var f := Preview(l, part);
            (f.waiting == 0 && part.budgetAmounts == 0 && f.alreadyHere == |part.live|
             && f.deletedAlreadyHere == |part.deleted| && f.stagedAlreadyHere == |part.staged|)
            <==> WhollyIn(l, part)
  {
    FoundAll(l, part.live);
    FoundAll(l, part.deleted);
    FoundAll(l, part.staged);
    var w := Waiting(l, part);
    if WhollyIn(l, part) {
      assert w == {};
    } else if |w| == 0 {
      assert forall o :: o in part.live + part.deleted ==> o !in w;
    }
  }

  lemma WritesMissing(l: Ledger, body: Body, o: Origin)
    requires o in Brought(body.mode, body.part) && !Found(l, o)
    ensures WriteRows(l, ResultOf(l, body)).arrived[o] > l.arrived[o]
  {
    var r := ResultOf(l, body);
    assert o in r.entries || o in r.staged;
    hide ResultOf, Found;
    assert multiset(r.entries)[o] + multiset(r.staged)[o] > 0;
  }

  lemma WritesNone(l: Ledger, r: Result)
    requires r.entries == [] && r.staged == []
    ensures WriteRows(l, r) == l
  {
  }

  /** Sending a part writes nothing exactly when every row it would bring is here. */
  lemma WritesNothingExactly(l: Ledger, body: Body)
    ensures WriteRows(l, ResultOf(l, body)) == l <==> forall o :: o in Brought(body.mode, body.part) ==> Found(l, o)
  {
    hide WriteRows, Found;
    if forall o :: o in Brought(body.mode, body.part) ==> Found(l, o) {
      MissingNone(l, body.part.live + body.part.deleted);
      MissingNone(l, body.part.staged);
      MissingNone(l, body.part.live + body.part.staged);
      WritesNone(l, ResultOf(l, body));
    } else {
      var o :| o in Brought(body.mode, body.part) && !Found(l, o);
      WritesMissing(l, body, o);
    }
  }

  /** So sending a part that is wholly in would write nothing at all. */
  lemma WhollyInWritesNothing(l: Ledger, body: Body)
    requires body.mode == Move && WhollyIn(l, body.part)
    ensures WriteRows(l, ResultOf(l, body)) == l
  {
    WritesNothingExactly(l, body);
  }

  lemma MissingNone(l: Ledger, rows: seq<Origin>)
    ensures (forall o :: o in rows ==> Found(l, o)) ==> Missing(l, rows) == []
  {
    if (forall o :: o in rows ==> Found(l, o)) && Missing(l, rows) != [] {
      assert Missing(l, rows)[0] in Missing(l, rows);
    }
  }
}
