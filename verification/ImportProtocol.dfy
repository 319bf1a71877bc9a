/**
 The import of a file in parts as a distributed run: one page, one ledger, and a network that may
 deliver a request at any later time, lose it, or lose its answer. Every theorem is about every run.
 */
module ImportProtocol {
  import opened Options
  import opened LedgerServer
  import opened LedgerImport

  /**
   `tickets` numbers every request ever sent; `flights` are the ones that may still arrive, any number of
   times, `replies` the last answer to each that the network carries, and `waiting` the ticket the page
   waits on while it is sending.
   */
  datatype World = World(
    page: Page, ledger: Ledger,
    tickets: map<nat, Request>, flights: set<nat>, replies: map<nat, Reply>,
    waiting: nat, nextTicket: nat, nextAttempt: nat)

  datatype Step =
    | ChooseAFile(parts: seq<Part>)
    | CheckItAgain
    | PreviewNextPart
    | CheckStops
    | PressStart(mode: Mode, answers: string)
    | PressTryAgain
    | Arrive(ticket: nat, verdict: Verdict, heard: bool)
    | DropOnTheWay(ticket: nat)
    | AnswerReaches
    | ConnectionLost
    | CloseAndOpen
    | CommitStaged(origin: Origin)
    | DiscardStaged(origin: Origin)
    | AnswerExpires(slot: Slot)

  function Dispatch(w: World, page: Page): World
    requires page.run.Sending? ==> Coherent(page)
  {
    if page.run.Sending? then
      var t := w.nextTicket;
      w.(page := page, tickets := w.tickets[t := RequestAt(page.checked.value, page.attempt.value, page.run.index)],
         flights := w.flights + {t}, waiting := t, nextTicket := t + 1)
    else w.(page := page)
  }

  /** A world whose page can be stepped: what the page functions ask for. */
  ghost predicate Steppable(w: World) {
    Coherent(w.page) && (!w.page.run.Idle? ==> PassesEarly(w.page))
  }

  /** One step; a step that is not open to anybody in this world leaves it as it is. */
  ghost function Next(w: World, step: Step): World
    requires Steppable(w)
  {
    var p := w.page;
    match step
    case ChooseAFile(parts) => w.(page := ChooseFile(p, parts))
    case CheckItAgain => w.(page := CheckAgain(p))
    case PreviewNextPart =>
      if p.checking.Some? then
        w.(page := ReadPart(p, Preview(w.ledger, p.checking.value.parts[|p.checking.value.facts|])))
      else w
    case CheckStops => w.(page := CheckFails(p))
    case PressStart(mode, answers) =>
      if CanStart(p) then
        StartReady(p, mode, answers, w.nextAttempt);
        ProceedCoherent(Started(p, mode, answers, w.nextAttempt), 1);
        Dispatch(w, Start(p, mode, answers, w.nextAttempt)).(nextAttempt := w.nextAttempt + 1)
      else w
    case PressTryAgain =>
      if CanTryAgain(p) then
        ProceedCoherent(p, p.run.index);
        Dispatch(w, TryAgain(p))
      else w
    case Arrive(ticket, verdict, heard) =>
      if ticket in w.flights && ticket in w.tickets then
        var (after, reply) := Handle(w.ledger, w.tickets[ticket], verdict);
        w.(ledger := after, replies := if heard then w.replies[ticket := reply] else w.replies)
      else w
    case DropOnTheWay(ticket) => w.(flights := w.flights - {ticket})
    case AnswerReaches =>
      if p.run.Sending? && w.waiting in w.replies then
        match w.replies[w.waiting]
        case Wrote(result) =>
          if result.index == p.run.index then
            NotedReady(p, result);
            ProceedCoherent(Noted(p, result), p.run.index + 1);
            Dispatch(w, Answered(p, result))
          else w
        case Refused(byBalances) => w.(page := RefusedPart(p, byBalances))
      else w
    case ConnectionLost => if p.run.Sending? then w.(page := LostPart(p)) else w
    case CloseAndOpen => w.(page := NEW_PAGE)
    case CommitStaged(o) => w.(ledger := CommitRow(w.ledger, o))
    case DiscardStaged(o) => w.(ledger := DiscardRow(w.ledger, o))
    case AnswerExpires(slot) => w.(ledger := ExpireAnswer(w.ledger, slot))
  }

  // ---------------------------------------------------------------- the invariant

  /** Everything bringing these parts in brings is known here. */
  ghost predicate AllKnown(l: Ledger, rows: seq<Origin>) {
    forall o :: o in rows ==> Known(l, o)
  }

  /** Everything bringing a part in brings is known here, and a move's entries are in the books. */
  ghost predicate BroughtIn(l: Ledger, mode: Mode, part: Part) {
    AllKnown(l, Brought(mode, part)) && (mode == Move ==> EntriesIn(l, part))
  }

  /** Rows that were all here when `since` had been discarded: each still is, unless discarded since. */
  ghost predicate HereSince(l: Ledger, rows: seq<Origin>, since: multiset<Origin>) {
    forall o :: o in rows ==> since[o] <= l.discarded[o] && (since[o] == l.discarded[o] ==> Found(l, o))
  }

  /** A part found in by a preview: its entries are in the books, and its staged rows were here. */
  ghost predicate StillIn(l: Ledger, part: Part, since: multiset<Origin>) {
    && EntriesIn(l, part)
    && HereSince(l, part.staged, since)
    && part.budgetAmounts == 0
  }

  ghost predicate FactsHold(l: Ledger, file: Checked) {
    |file.facts| <= |file.parts|
    && forall j :: 0 <= j < |file.facts| ==>
         AlreadyIn(file.parts[j], file.facts[j], j + 1).Some? ==> StillIn(l, file.parts[j], file.facts[j].discards)
  }

  /** The parts before `index` are in, each with everything its mode brings. */
  ghost predicate InThrough(l: Ledger, file: Checked, mode: Mode, n: nat) {
    n <= |file.parts| && forall j :: 0 <= j < n ==> BroughtIn(l, mode, file.parts[j])
  }

  ghost predicate PageTrue(w: World) {
    var p := w.page;
    && Steppable(w)
    && (p.checked.Some? ==> FactsHold(w.ledger, p.checked.value))
    && (p.checking.Some? ==> FactsHold(w.ledger, p.checking.value))
    && (p.attempt.Some? ==> InThrough(w.ledger, p.checked.value, p.attempt.value.mode, Behind(p)))
  }

  /** One key, one request, for as long as anybody remembers; and the current attempt's keys carry its own parts. */
  ghost predicate KeysTrue(w: World) {
    && (forall t :: t in w.tickets ==> t < w.nextTicket && w.tickets[t].key.attempt < w.nextAttempt)
    && OneEach(w.tickets)
    && (w.page.attempt.Some? ==> AttemptKeys(w))
    && (w.page.run.Sending? ==> Awaited(w))
  }

  ghost predicate OneEach(tickets: map<nat, Request>) {
    forall t, u :: t in tickets && u in tickets && tickets[t].key == tickets[u].key ==> tickets[t] == tickets[u]
  }

  ghost predicate AttemptKeys(w: World)
    requires w.page.attempt.Some?
  {
    && w.page.checked.Some? && w.page.attempt.value.key < w.nextAttempt
    && forall t :: t in w.tickets && w.tickets[t].key.attempt == w.page.attempt.value.key ==>
         && 1 <= w.tickets[t].key.index <= |w.page.checked.value.parts|
         && w.tickets[t] == RequestAt(w.page.checked.value, w.page.attempt.value, w.tickets[t].key.index)
  }

  ghost predicate Awaited(w: World)
    requires w.page.run.Sending?
  {
    && w.waiting in w.tickets && w.page.checked.Some? && w.page.attempt.Some?
    && 1 <= w.page.run.index <= |w.page.checked.value.parts|
    && w.tickets[w.waiting] == RequestAt(w.page.checked.value, w.page.attempt.value, w.page.run.index)
  }

  /** A written part's rows are known. */
  ghost predicate WroteTrue(l: Ledger, body: Body, result: Result) {
    result.index == body.index && BroughtIn(l, body.mode, body.part)
  }

  /** An answer given or stored is of a part that was applied, and a stored one of a request that was sent. */
  ghost predicate AnswersTrue(w: World) {
    && (forall t :: t in w.replies ==> t in w.tickets)
    && (forall t :: t in w.replies && w.replies[t].Wrote? ==>
          WroteTrue(w.ledger, w.tickets[t].body, w.replies[t].result) && SlotOf(w.tickets[t]) in w.ledger.appliedAt)
    && (forall slot :: slot in w.ledger.records ==> StoredTrue(w, slot))
  }

  ghost predicate StoredTrue(w: World, slot: Slot)
    requires slot in w.ledger.records
  {
    var record := w.ledger.records[slot];
    && WroteTrue(w.ledger, record.body, record.result) && Distinct(AllRows(record.body.part))
    && SentAs(w, Request(slot.key, record.body)) && slot.mode == record.body.mode
  }

  ghost predicate SentAs(w: World, r: Request) {
    exists t :: t in w.tickets && w.tickets[t] == r
  }

  /** Only what was sent is ever applied, and what was applied is here unless discarded since. */
  ghost predicate AppliedTrue(w: World) {
    && (forall slot :: slot in w.ledger.appliedAt ==> SentUnder(w, slot))
    && (forall t :: t in w.tickets && SlotOf(w.tickets[t]) in w.ledger.appliedAt ==> AppliedHere(w.ledger, w.tickets[t]))
  }

  ghost predicate SentUnder(w: World, slot: Slot) {
    exists t :: t in w.tickets && SlotOf(w.tickets[t]) == slot
  }

  ghost predicate AppliedHere(l: Ledger, r: Request)
    requires SlotOf(r) in l.appliedAt
  {
    HereSince(l, Brought(r.body.mode, r.body.part), l.appliedAt[SlotOf(r)])
  }

  /** The slot part `j` of the attempt is applied under. */
  function PartSlot(p: Page, j: nat): Slot
    requires p.attempt.Some?
  {
    Slot(p.attempt.value.mode, Key(p.attempt.value.key, j))
  }

  /** The furthest part the run may have sent. */
  function Frontier(p: Page): nat {
    if p.run.Sending? || p.run.Stopped? then p.run.index else if p.checked.Some? then |p.checked.value.parts| else 0
  }

  /** Nothing beyond the run was sent, nor any part it passes over; what it sent and left behind was applied. */
  ghost predicate AttemptTrue(w: World) {
    var p := w.page;
    p.attempt.Some? && Coherent(p) ==>
      && (forall t :: t in w.tickets && w.tickets[t].key.attempt == p.attempt.value.key ==>
            && 1 <= w.tickets[t].key.index <= Frontier(p) <= |p.checked.value.parts|
            && !PassesOver(p.checked.value, p.attempt.value.mode, w.tickets[t].key.index))
      && (forall j :: 1 <= j <= Behind(p) && !PassesOver(p.checked.value, p.attempt.value.mode, j) ==>
            PartSlot(p, j) in w.ledger.appliedAt)
  }

  ghost predicate Invariant(w: World) {
    Sound(w.ledger) && PageTrue(w) && KeysTrue(w) && AnswersTrue(w) && AppliedTrue(w) && AttemptTrue(w)
  }

  /** A page just opened beside a ledger that holds each row at most once; keys are new, so nothing has
      been applied under any. */
  ghost predicate Initial(w: World) {
    && w.page == NEW_PAGE && w.tickets == map[] && w.flights == {} && w.replies == map[]
    && Sound(w.ledger) && w.ledger.records == map[] && w.ledger.appliedAt == map[]
  }

  // ---------------------------------------------------------------- what a growing ledger keeps

  lemma BroughtThrough(before: Ledger, after: Ledger, mode: Mode, part: Part)
    requires Grows(before, after) && BroughtIn(before, mode, part)
    ensures BroughtIn(after, mode, part)
  {
    forall o | o in Brought(mode, part) ensures Known(after, o) {
      assert RowGrows(before, after, o);
    }
    if mode == Move {
      forall o | o in part.live + part.deleted ensures o in after.books {
        assert RowGrows(before, after, o);
      }
    }
  }

  lemma HereThrough(before: Ledger, after: Ledger, rows: seq<Origin>, since: multiset<Origin>)
    requires Grows(before, after) && HereSince(before, rows, since)
    ensures HereSince(after, rows, since)
  {
    forall o | o in rows ensures since[o] <= after.discarded[o] && (since[o] == after.discarded[o] ==> Found(after, o)) {
      assert RowGrows(before, after, o);
    }
  }

  lemma StillInThrough(before: Ledger, after: Ledger, part: Part, since: multiset<Origin>)
    requires Grows(before, after) && StillIn(before, part, since)
    ensures StillIn(after, part, since)
  {
    HereThrough(before, after, part.staged, since);
    forall o | o in part.live + part.deleted ensures o in after.books {
      assert RowGrows(before, after, o);
    }
  }

  lemma PageThrough(w: World, after: Ledger)
    requires PageTrue(w) && Grows(w.ledger, after)
    ensures PageTrue(w.(ledger := after))
  {
    hide Grows, StillIn, BroughtIn, AlreadyIn;
    FactsThrough(w.ledger, after, w.page.checked);
    FactsThrough(w.ledger, after, w.page.checking);
    if !w.page.run.Idle? {
      var file, mode := w.page.checked.value, w.page.attempt.value.mode;
      forall j | 0 <= j < |file.parts| && BroughtIn(w.ledger, mode, file.parts[j])
        ensures BroughtIn(after, mode, file.parts[j])
      {
        BroughtThrough(w.ledger, after, mode, file.parts[j]);
      }
    }
  }

  lemma FactsThrough(before: Ledger, after: Ledger, file: Option<Checked>)
    requires Grows(before, after)
    ensures file.Some? && FactsHold(before, file.value) ==> FactsHold(after, file.value)
  {
    hide Grows, StillIn, AlreadyIn;
    if file.Some? && FactsHold(before, file.value) {
      forall j | 0 <= j < |file.value.facts| && StillIn(before, file.value.parts[j], file.value.facts[j].discards)
        ensures StillIn(after, file.value.parts[j], file.value.facts[j].discards)
      {
        StillInThrough(before, after, file.value.parts[j], file.value.facts[j].discards);
      }
    }
  }

  /** When only rows change, every answer given stays true. */
  lemma AnswersThrough(w: World, after: Ledger)
    requires AnswersTrue(w) && Grows(w.ledger, after) && after.appliedAt == w.ledger.appliedAt
    requires forall slot :: slot in after.records ==> slot in w.ledger.records && after.records[slot] == w.ledger.records[slot]
    ensures AnswersTrue(w.(ledger := after))
  {
    hide Grows, BroughtIn, AllRows, Distinct;
    forall body: Body, result: Result | WroteTrue(w.ledger, body, result) ensures WroteTrue(after, body, result) {
      BroughtThrough(w.ledger, after, body.mode, body.part);
    }
    forall slot | slot in after.records ensures StoredTrue(w.(ledger := after), slot) { assert StoredTrue(w, slot); }
  }

  /** And what was applied stays here unless it is discarded. */
  lemma AppliedThrough(w: World, after: Ledger)
    requires AppliedTrue(w) && AttemptTrue(w) && Grows(w.ledger, after) && after.appliedAt == w.ledger.appliedAt
    ensures AppliedTrue(w.(ledger := after)) && AttemptTrue(w.(ledger := after))
  {
    hide Grows, HereSince, Brought, Coherent;
    forall t | t in w.tickets && SlotOf(w.tickets[t]) in w.ledger.appliedAt ensures AppliedHere(after, w.tickets[t]) {
      var r := w.tickets[t];
      HereThrough(w.ledger, after, Brought(r.body.mode, r.body.part), w.ledger.appliedAt[SlotOf(r)]);
    }
    forall slot | slot in after.appliedAt ensures SentUnder(w.(ledger := after), slot) { assert SentUnder(w, slot); }
  }

  // ---------------------------------------------------------------- each kind of step

  lemma InvariantSteps(w: World)
    requires Invariant(w)
    ensures Steppable(w)
  {
  }

  /** What a person, or time, makes of the ledger. */
  function Worked(l: Ledger, step: Step): Ledger {
    match step
    case CommitStaged(o) => CommitRow(l, o)
    case DiscardStaged(o) => DiscardRow(l, o)
    case AnswerExpires(slot) => ExpireAnswer(l, slot)
    case _ => l
  }

  lemma WorkedKeeps(l: Ledger, step: Step)
    requires Sound(l)
    ensures var after := Worked(l, step);
      && Sound(after) && Grows(l, after) && after.appliedAt == l.appliedAt
      && forall slot :: slot in after.records ==> slot in l.records && after.records[slot] == l.records[slot]
  {
    hide Sound, Grows, CommitRow, DiscardRow, ExpireAnswer;
    var o := if step.CommitStaged? || step.DiscardStaged? then step.origin else "";
    var slot := if step.AnswerExpires? then step.slot else Slot(Add, Key(0, 0));
    PeopleKeepSound(l, o, slot);
    PeopleStore(l, o);
    TimeClears(l, slot);
    GrowsItself(l);
  }

  /** Committing and discarding rows leave the stored answers alone. */
  lemma PeopleStore(l: Ledger, o: Origin)
    ensures CommitRow(l, o) == l.(books := CommitRow(l, o).books, queue := CommitRow(l, o).queue)
    ensures DiscardRow(l, o) == l.(queue := DiscardRow(l, o).queue, discarded := DiscardRow(l, o).discarded)
  {
  }

  lemma TimeClears(l: Ledger, cleared: Slot)
    ensures ExpireAnswer(l, cleared).appliedAt == l.appliedAt
    ensures ExpireAnswer(l, cleared).records == l.records - {cleared}
  {
  }

  lemma GrowsItself(l: Ledger)
    ensures Grows(l, l)
  {
  }

  lemma PeopleStep(w: World, step: Step)
    requires Invariant(w) && (step.CommitStaged? || step.DiscardStaged? || step.AnswerExpires?)
    ensures Invariant(Next(w, step))
  {
    hide Sound, Grows, PageTrue, AnswersTrue, AppliedTrue, AttemptTrue, KeysTrue, Coherent, PassesEarly, Worked;
    assert Steppable(w) by { InvariantSteps(w); }
    WorkedNext(w, step);
    hide Next;
    WorkedKeeps(w.ledger, step);
    var after := Worked(w.ledger, step);
    PageThrough(w, after);
    AnswersThrough(w, after);
    AppliedThrough(w, after);
    KeysUnmoved(w, after);
  }

  lemma WorkedNext(w: World, step: Step)
    requires Steppable(w) && (step.CommitStaged? || step.DiscardStaged? || step.AnswerExpires?)
    ensures Next(w, step) == w.(ledger := Worked(w.ledger, step))
  {
    hide Steppable, CommitRow, DiscardRow, ExpireAnswer;
  }

  lemma KeysUnmoved(w: World, after: Ledger)
    requires KeysTrue(w)
    ensures KeysTrue(w.(ledger := after))
  {
  }

  /** Flights and replies are not what the page says or what the keys are. */
  lemma PageUnmoved(w: World, v: World)
    requires PageTrue(w) && KeysTrue(w) && v == w.(ledger := v.ledger, flights := v.flights, replies := v.replies)
    ensures v.ledger == w.ledger ==> PageTrue(v)
    ensures KeysTrue(v)
  {
    hide DoneThrough, FactsHold, InThrough;
  }

  lemma ArriveStep(w: World, ticket: nat, verdict: Verdict, heard: bool)
    requires Invariant(w) && ticket in w.flights && ticket in w.tickets
    ensures Invariant(Next(w, Arrive(ticket, verdict, heard)))
  {
    hide Sound, Grows, PageTrue, KeysTrue, Handle, BroughtIn, Brought, AttemptTrue, Next, Coherent, PassesEarly;
    assert Steppable(w) by { InvariantSteps(w); }
    hide AnswersTrue, AppliedTrue, WroteTrue, StoredTrue;
    var r := w.tickets[ticket];
    var (after, reply) := Handle(w.ledger, r, verdict);
    HandleKeepsSound(w.ledger, r, verdict);
    PageThrough(w, after);
    HandleAnswers(w.ledger, r, verdict);
    KeysUnmoved(w, after);
    if reply.Wrote? && SlotOf(r) !in w.ledger.records {
      RecordStored(w, after, ticket, reply.result);
      AppliedMore(w, after, ticket);
    } else {
      assert after == w.ledger;
      if reply.Wrote? { StoredAnswer(w, ticket); }
    }
    ArrivedNext(w, ticket, verdict, heard);
    var v := w.(ledger := after);
    if heard { ReplyKept(v, ticket, reply); }
    PageUnmoved(v, Next(w, Arrive(ticket, verdict, heard)));
    AppliedUnmoved(v, Next(w, Arrive(ticket, verdict, heard)));
  }

  lemma ArrivedNext(w: World, ticket: nat, verdict: Verdict, heard: bool)
    requires Steppable(w) && ticket in w.flights && ticket in w.tickets
    ensures var (after, reply) := Handle(w.ledger, w.tickets[ticket], verdict);
      Next(w, Arrive(ticket, verdict, heard)) == w.(ledger := after, replies := if heard then w.replies[ticket := reply] else w.replies)
  {
    hide Steppable, Handle;
  }

  /** A stored answer under the slot of a ticket is the answer to that ticket's request. */
  lemma StoredAnswer(w: World, ticket: nat)
    requires AnswersTrue(w) && KeysTrue(w) && Sound(w.ledger) && ticket in w.tickets && SlotOf(w.tickets[ticket]) in w.ledger.records
    ensures var record := w.ledger.records[SlotOf(w.tickets[ticket])];
      && record.body == w.tickets[ticket].body && WroteTrue(w.ledger, record.body, record.result)
      && Distinct(AllRows(record.body.part)) && SlotOf(w.tickets[ticket]) in w.ledger.appliedAt
  {
    hide WroteTrue, AllRows, Distinct, RowSound;
    var slot := SlotOf(w.tickets[ticket]);
    assert StoredTrue(w, slot) && SlotSound(w.ledger, slot);
    var u :| u in w.tickets && w.tickets[u] == Request(slot.key, w.ledger.records[slot].body);
    assert w.tickets[u].key == w.tickets[ticket].key;
  }

  /** A part just written, its answer stored under the request that is being handled. */
  lemma RecordStored(w: World, after: Ledger, ticket: nat, result: Result)
    requires AnswersTrue(w) && Grows(w.ledger, after) && ticket in w.tickets
    requires var r := w.tickets[ticket];
             && after.records == w.ledger.records[SlotOf(r) := Record(r.body, result)]
             && after.appliedAt == w.ledger.appliedAt[SlotOf(r) := after.discarded]
             && WroteTrue(after, r.body, result) && Distinct(AllRows(r.body.part))
    ensures AnswersTrue(w.(ledger := after))
  {
    hide Grows, BroughtIn, AllRows, Distinct;
    forall body: Body, res: Result | WroteTrue(w.ledger, body, res) ensures WroteTrue(after, body, res) {
      BroughtThrough(w.ledger, after, body.mode, body.part);
    }
    assert w.tickets[ticket] == Request(w.tickets[ticket].key, w.tickets[ticket].body);
    forall slot | slot in after.records ensures StoredTrue(w.(ledger := after), slot) {
      assert slot in w.ledger.records ==> StoredTrue(w, slot);
    }
  }

  /** A part just applied is here, and nothing else that was applied is touched. */
  lemma AppliedMore(w: World, after: Ledger, ticket: nat)
    requires AppliedTrue(w) && AttemptTrue(w) && KeysTrue(w) && Grows(w.ledger, after) && ticket in w.tickets
    requires var r := w.tickets[ticket];
             && after.appliedAt == w.ledger.appliedAt[SlotOf(r) := after.discarded]
             && forall o :: o in Brought(r.body.mode, r.body.part) ==> Found(after, o)
    ensures AppliedTrue(w.(ledger := after)) && AttemptTrue(w.(ledger := after))
  {
    hide Grows, Brought, Coherent, Found;
    var slot := SlotOf(w.tickets[ticket]);
    forall t | t in w.tickets && SlotOf(w.tickets[t]) in after.appliedAt ensures AppliedHere(after, w.tickets[t]) {
      var r := w.tickets[t];
      if SlotOf(r) == slot {
        assert r.key == w.tickets[ticket].key;
      } else {
        HereThrough(w.ledger, after, Brought(r.body.mode, r.body.part), w.ledger.appliedAt[SlotOf(r)]);
      }
    }
    forall s | s in after.appliedAt ensures SentUnder(w.(ledger := after), s) { assert s == slot || SentUnder(w, s); }
  }

  lemma AppliedUnmoved(w: World, v: World)
    requires AppliedTrue(w) && AttemptTrue(w) && v == w.(replies := v.replies, flights := v.flights)
    ensures AppliedTrue(v) && AttemptTrue(v)
  {
    hide Coherent, HereSince;
    forall slot | slot in v.ledger.appliedAt ensures SentUnder(v, slot) { assert SentUnder(w, slot); }
  }

  lemma ReplyKept(w: World, ticket: nat, reply: Reply)
    requires AnswersTrue(w) && ticket in w.tickets
    requires reply.Wrote? ==>
      WroteTrue(w.ledger, w.tickets[ticket].body, reply.result) && SlotOf(w.tickets[ticket]) in w.ledger.appliedAt
    ensures AnswersTrue(w.(replies := w.replies[ticket := reply]))
  {
    hide WroteTrue, AllRows, Distinct;
    var v := w.(replies := w.replies[ticket := reply]);
    forall slot | slot in v.ledger.records ensures StoredTrue(v, slot) { assert StoredTrue(w, slot); }
  }

  /** What the server answers when a part was written, now or by an earlier arrival of the same request. */
  lemma HandleAnswers(l: Ledger, r: Request, verdict: Verdict)
    requires Sound(l)
    ensures var (after, reply) := Handle(l, r, verdict);
            var slot := Slot(r.body.mode, r.key);
            && (slot in l.records ==> after == l && (reply.Wrote? ==> l.records[slot] == Record(r.body, reply.result)))
            && (slot !in l.records && reply.Wrote? ==>
                  && after.records == l.records[slot := Record(r.body, reply.result)] && WroteTrue(after, r.body, reply.result)
                  && after.appliedAt == l.appliedAt[slot := after.discarded] && Distinct(AllRows(r.body.part))
                  && forall o :: o in Brought(r.body.mode, r.body.part) ==> Found(after, o))
            && (!reply.Wrote? ==> after == l)
  {
    if Slot(r.body.mode, r.key) !in l.records {
      HandleBrings(l, r, verdict);
    }
  }

  /** A preview that finds a part in is a part that is in. */
  lemma PreviewTrue(l: Ledger, part: Part, index: nat)
    ensures AlreadyIn(part, Preview(l, part), index).Some? ==> StillIn(l, part, l.discarded)
  {
    PreviewCounts(l, part);
  }

  lemma CheckStep(w: World, step: Step)
    requires Invariant(w)
    requires step.ChooseAFile? || step.CheckItAgain? || step.PreviewNextPart? || step.CheckStops? || step.CloseAndOpen?
    ensures Invariant(Next(w, step))
  {
    hide Sound, StillIn, AlreadyIn, AnswersTrue, AppliedTrue;
    if step.PreviewNextPart? && w.page.checking.Some? {
      var file := w.page.checking.value;
      var n := |file.facts|;
      PreviewTrue(w.ledger, file.parts[n], n + 1);
      var read := file.(facts := file.facts + [Preview(w.ledger, file.parts[n])]);
      assert FactsHold(w.ledger, read);
    }
    assert AnswersTrue(Next(w, step)) && AppliedTrue(Next(w, step)) by { AnswersUnmoved(w, Next(w, step)); }
  }

  /** The page, and requests nobody has answered, are not in what was answered or applied. */
  lemma AnswersUnmoved(w: World, v: World)
    requires AnswersTrue(w) && AppliedTrue(w) && v.ledger == w.ledger && v.replies == w.replies
    requires forall t :: t in w.tickets ==> t in v.tickets && v.tickets[t] == w.tickets[t]
    requires forall t :: t in v.tickets && t !in w.tickets && SlotOf(v.tickets[t]) in v.ledger.appliedAt ==>
               AppliedHere(v.ledger, v.tickets[t])
    ensures AnswersTrue(v) && AppliedTrue(v)
  {
    hide WroteTrue, AllRows, Distinct, HereSince;
    forall slot | slot in v.ledger.records ensures StoredTrue(v, slot) {
      assert StoredTrue(w, slot);
      var t :| t in w.tickets && w.tickets[t] == Request(slot.key, w.ledger.records[slot].body);
      assert v.tickets[t] == w.tickets[t];
    }
    forall slot | slot in v.ledger.appliedAt ensures SentUnder(v, slot) {
      assert SentUnder(w, slot);
      var t :| t in w.tickets && SlotOf(w.tickets[t]) == slot;
      assert v.tickets[t] == w.tickets[t];
    }
  }

  /** The loop comes to rest with every part before it in: answered earlier, or passed over because it was in. */
  lemma ProceedTrue(w: World, p: Page, index: nat)
    requires Ready(p, index) && FactsHold(w.ledger, p.checked.value)
    requires InThrough(w.ledger, p.checked.value, p.attempt.value.mode, index - 1)
    ensures var q := Proceed(p, index);
            && Coherent(q) && PassesEarly(q) && q.checked == p.checked && q.attempt == p.attempt && q.checking.None?
            && (q.run.Finished? || q.run.Sending?)
            && InThrough(w.ledger, q.checked.value, q.attempt.value.mode, Behind(q))
            && (forall j :: index <= j <= Behind(q) ==> PassesOver(p.checked.value, p.attempt.value.mode, j))
            && (q.run.Sending? ==> q.run.index >= index)
  {
    hide StillIn, Known, AlreadyIn, Proceed, DoneThrough;
    ProceedCoherent(p, index);
    var q, file, mode := Proceed(p, index), p.checked.value, p.attempt.value.mode;
    forall j | 0 <= j < Behind(q) ensures BroughtIn(w.ledger, mode, file.parts[j]) {
      if j >= index - 1 {
        assert PassesOver(file, mode, j + 1);
        assert StillIn(w.ledger, file.parts[j], file.facts[j].discards);
        StillInKnown(w.ledger, file.parts[j], file.facts[j].discards);
      }
    }
  }

  lemma StillInKnown(l: Ledger, part: Part, since: multiset<Origin>)
    requires StillIn(l, part, since)
    ensures AllKnown(l, AllRows(part)) && EntriesIn(l, part)
  {
  }

  /** Sending a part under its key, with everything sent under the attempt before matching it. */
  lemma DispatchKeeps(w: World, q: Page, newKey: bool)
    requires Invariant(w) && Coherent(q) && PassesEarly(q) && q.checking.None? && (q.run.Finished? || q.run.Sending?)
    requires FactsHold(w.ledger, q.checked.value)
    requires InThrough(w.ledger, q.checked.value, q.attempt.value.mode, Behind(q))
    requires if newKey then q.attempt.value.key == w.nextAttempt
             else w.page.attempt == q.attempt && w.page.checked == q.checked && Frontier(w.page) <= Frontier(q)
    requires forall j :: 1 <= j <= Behind(q) && !PassesOver(q.checked.value, q.attempt.value.mode, j) ==>
               PartSlot(q, j) in w.ledger.appliedAt
    ensures Invariant(Dispatch(w, q).(nextAttempt := if newKey then w.nextAttempt + 1 else w.nextAttempt))
  {
    hide Sound, BroughtIn, AnswersTrue, KeysTrue, AppliedTrue, AttemptTrue, DoneThrough, PassesEarly, FactsHold, InThrough;
    var v := Dispatch(w, q).(nextAttempt := if newKey then w.nextAttempt + 1 else w.nextAttempt);
    assert forall t :: t in w.tickets ==> t in v.tickets && v.tickets[t] == w.tickets[t] by { assert KeysTrue(w); TicketsGrow(w, q); }
    DispatchKeys(w, q, newKey);
    DispatchApplied(w, v, q);
    AnswersUnmoved(w, v);
    DispatchAttempt(w, v, q, newKey);
  }

  /** A request sent again is the request that was applied, if one was. */
  lemma DispatchApplied(w: World, v: World, q: Page)
    requires AppliedTrue(w) && KeysTrue(v) && v.ledger == w.ledger
    requires forall t :: t in w.tickets ==> t in v.tickets && v.tickets[t] == w.tickets[t]
    ensures forall t :: t in v.tickets && t !in w.tickets && SlotOf(v.tickets[t]) in v.ledger.appliedAt ==>
              AppliedHere(v.ledger, v.tickets[t])
  {
    hide HereSince, Brought, AttemptKeys, Awaited;
    forall t | t in v.tickets && t !in w.tickets && SlotOf(v.tickets[t]) in v.ledger.appliedAt
      ensures AppliedHere(v.ledger, v.tickets[t])
    {
      assert SentUnder(w, SlotOf(v.tickets[t]));
      var u :| u in w.tickets && SlotOf(w.tickets[u]) == SlotOf(v.tickets[t]);
      assert v.tickets[u].key == v.tickets[t].key && AppliedHere(w.ledger, w.tickets[u]);
    }
  }

  lemma DispatchAttempt(w: World, v: World, q: Page, newKey: bool)
    requires AttemptTrue(w) && KeysTrue(w) && Coherent(w.page) && Coherent(q) && (q.run.Finished? || q.run.Sending?)
    requires v == Dispatch(w, q).(nextAttempt := v.nextAttempt)
    requires if newKey then q.attempt.value.key == w.nextAttempt
             else w.page.attempt == q.attempt && w.page.checked == q.checked && Frontier(w.page) <= Frontier(q)
    requires forall j :: 1 <= j <= Behind(q) && !PassesOver(q.checked.value, q.attempt.value.mode, j) ==>
               PartSlot(q, j) in w.ledger.appliedAt
    ensures AttemptTrue(v)
  {
    hide DoneThrough, OneEach, PassesOver, PassesEarly;
  }

  lemma TicketsGrow(w: World, q: Page)
    requires KeysTrue(w) && Coherent(q)
    ensures forall t :: t in w.tickets ==> t in Dispatch(w, q).tickets && Dispatch(w, q).tickets[t] == w.tickets[t]
  {
  }

  /** The new ticket's key is new under a new attempt, and under the same attempt it names the same part. */
  lemma DispatchKeys(w: World, q: Page, newKey: bool)
    requires KeysTrue(w) && Coherent(q) && q.attempt.Some?
    requires if newKey then q.attempt.value.key == w.nextAttempt
             else w.page.attempt == q.attempt && w.page.checked == q.checked
    ensures KeysTrue(Dispatch(w, q).(nextAttempt := if newKey then w.nextAttempt + 1 else w.nextAttempt))
  {
    hide DoneThrough, RequestAt, OneEach, PassesEarly;
    TicketsGrow(w, q);
    if q.run.Sending? {
      var r := RequestAt(q.checked.value, q.attempt.value, q.run.index);
      KeyOf(q.checked.value, q.attempt.value, q.run.index);
      assert forall t :: t in w.tickets && w.tickets[t].key == r.key ==> w.tickets[t] == r;
      OneMore(w.tickets, w.nextTicket, r);
    }
  }

  lemma OneMore(tickets: map<nat, Request>, t: nat, r: Request)
    requires OneEach(tickets) && t !in tickets
    requires forall u :: u in tickets && tickets[u].key == r.key ==> tickets[u] == r
    ensures OneEach(tickets[t := r])
  {
  }

  lemma KeyOf(file: Checked, attempt: Attempt, index: nat)
    requires 1 <= index <= |file.parts|
    ensures RequestAt(file, attempt, index).key == Key(attempt.key, index)
  {
  }

  lemma PressStep(w: World, step: Step)
    requires Invariant(w) && (step.PressStart? || step.PressTryAgain?)
    ensures Invariant(Next(w, step))
  {
    hide Sound, BroughtIn, DoneThrough, Proceed, FactsHold, KeysTrue, AnswersTrue, AppliedTrue, PassesOver;
    var p := w.page;
    match step
    case PressStart(mode, answers) =>
      if CanStart(p) {
        StartReady(p, mode, answers, w.nextAttempt);
        ProceedTrue(w, Started(p, mode, answers, w.nextAttempt), 1);
        DispatchKeeps(w, Start(p, mode, answers, w.nextAttempt), true);
      }
    case PressTryAgain =>
      if CanTryAgain(p) {
        ProceedTrue(w, p, p.run.index);
        DispatchKeeps(w, TryAgain(p), false);
      }
  }

  /** The answer the page waits for is the answer to the part it is on. */
  lemma AwaitedAnswer(w: World, result: Result)
    requires KeysTrue(w) && AnswersTrue(w) && w.page.run.Sending? && w.waiting in w.replies && w.replies[w.waiting] == Wrote(result)
    ensures Awaited(w) && WroteTrue(w.ledger, w.tickets[w.waiting].body, result) && result.index == w.page.run.index
    ensures PartSlot(w.page, w.page.run.index) in w.ledger.appliedAt
  {
    hide BroughtIn;
    assert Awaited(w);
    assert WroteTrue(w.ledger, w.tickets[w.waiting].body, result);
    assert SlotOf(w.tickets[w.waiting]) == PartSlot(w.page, w.page.run.index);
  }

  lemma AnswerStep(w: World, result: Result)
    requires Invariant(w) && w.page.run.Sending? && w.waiting in w.replies && w.replies[w.waiting] == Wrote(result)
    ensures Invariant(Next(w, AnswerReaches))
  {
    hide Sound, BroughtIn, DoneThrough, Proceed, FactsHold, PassesEarly, PassesOver, AppliedTrue, WroteTrue,
         Awaited, KeysTrue, AnswersTrue;
    var p := w.page;
    AwaitedAnswer(w, result);
    NotedReady(p, result);
    NotedTrue(w, result);
    ProceedTrue(w, Noted(p, result), p.run.index + 1);
    DispatchKeeps(w, Answered(p, result), false);
  }

  /** The part just answered joins the parts that are in. */
  lemma NotedTrue(w: World, result: Result)
    requires PageTrue(w) && w.page.run.Sending? && Awaited(w) && WroteTrue(w.ledger, w.tickets[w.waiting].body, result)
    ensures InThrough(w.ledger, w.page.checked.value, w.page.attempt.value.mode, w.page.run.index)
  {
    hide BroughtIn;
  }

  lemma LostStep(w: World, step: Step)
    requires Invariant(w)
    requires || step.ConnectionLost? || step.DropOnTheWay?
             || (step.AnswerReaches? && w.page.run.Sending? && w.waiting in w.replies && w.replies[w.waiting].Refused?)
    ensures Invariant(Next(w, step))
  {
    hide Sound, DoneThrough, FactsHold, InThrough, AnswersTrue, AppliedTrue, PassesOver, OneEach, RequestAt;
    AnswersUnmoved(w, Next(w, step));
    if w.page.run.Sending? {
      assert DoneThrough(w.page, Behind(w.page));
      RunMoves(w.page, Next(w, step).page.run, Behind(w.page));
    }
  }

  lemma StepKeeps(w: World, step: Step)
    requires Invariant(w)
    ensures Invariant(Next(w, step))
  {
    hide Invariant;
    assert Invariant(w);
    match step
    case CommitStaged(_) => PeopleStep(w, step);
    case DiscardStaged(_) => PeopleStep(w, step);
    case AnswerExpires(_) => PeopleStep(w, step);
    case Arrive(ticket, verdict, heard) => if ticket in w.flights && ticket in w.tickets { ArriveStep(w, ticket, verdict, heard); }
    case ChooseAFile(_) => CheckStep(w, step);
    case CheckItAgain => CheckStep(w, step);
    case PreviewNextPart => CheckStep(w, step);
    case CheckStops => CheckStep(w, step);
    case CloseAndOpen => CheckStep(w, step);
    case AnswerReaches =>
      if w.page.run.Sending? && w.waiting in w.replies {
        match w.replies[w.waiting]
        case Wrote(result) => AnswerStep(w, result);
        case Refused(_) => LostStep(w, step);
      }
    case ConnectionLost => LostStep(w, step);
    case DropOnTheWay(_) => LostStep(w, step);
    case _ => PressStep(w, step);
  }

  // ---------------------------------------------------------------- every run

  ghost function After(w: World, steps: seq<Step>): World
    requires Invariant(w)
    decreases |steps|
  {
    if steps == [] then w
    else
      StepKeeps(w, steps[0]);
      After(Next(w, steps[0]), steps[1..])
  }

  lemma {:induction false} EveryRunKeeps(w: World, steps: seq<Step>)
    requires Invariant(w)
    ensures Invariant(After(w, steps))
    decreases |steps|
  {
    if steps != [] {
      StepKeeps(w, steps[0]);
      EveryRunKeeps(Next(w, steps[0]), steps[1..]);
    }
  }

  lemma InitialHolds(w: World)
    requires Initial(w)
    ensures Invariant(w)
  {
    hide Sound;
  }

  /** The world a run of steps leads to, from a page just opened. */
  ghost function RunFrom(w: World, steps: seq<Step>): (v: World)
    requires Initial(w)
    ensures Invariant(v)
  {
    InitialHolds(w);
    EveryRunKeeps(w, steps);
    After(w, steps)
  }

  /**
   Over every run of sends, refusals, losses, late arrivals, retries, fresh checks and new attempts, the
   ledger holds each row at most once, and imports wrote it at most once more than people discarded it.
   */
  lemma WrittenAtMostOnce(w: World, steps: seq<Step>, o: Origin)
    requires Initial(w)
    ensures var l := RunFrom(w, steps).ledger;
            l.books[o] + l.queue[o] <= 1 && l.arrived[o] <= 1 + l.discarded[o]
  {
    hide RunFrom;
    assert RowSound(RunFrom(w, steps).ledger, o);
  }

  /** A part is written under one key exactly once for each answer that is stored or was cleared away. */
  lemma AppliedOncePerAnswer(w: World, steps: seq<Step>, slot: Slot)
    requires Initial(w)
    ensures var l := RunFrom(w, steps).ledger; l.applied[slot] == l.expired[slot] + if slot in l.records then 1 else 0
  {
    hide RunFrom;
    assert SlotSound(RunFrom(w, steps).ledger, slot);
  }

  /** And a part applied again under its key writes nothing exactly when every row it brought is here: so
      never, unless one of them was discarded since it was last applied. */
  lemma AppliedAgainWritesNothing(w: World, steps: seq<Step>, t: nat)
    requires Initial(w)
    requires var v := RunFrom(w, steps); t in v.tickets && v.ledger.applied[SlotOf(v.tickets[t])] > 0
    ensures var v := RunFrom(w, steps); var (l, body) := (v.ledger, v.tickets[t].body);
            && SlotOf(v.tickets[t]) in l.appliedAt
            && (WriteRows(l, ResultOf(l, body)) == l <==> forall o :: o in Brought(body.mode, body.part) ==> Found(l, o))
            && ((forall o :: o in Brought(body.mode, body.part) ==> l.discarded[o] == l.appliedAt[SlotOf(v.tickets[t])][o]) ==>
                  WriteRows(l, ResultOf(l, body)) == l)
  {
    hide RunFrom, WriteRows, ResultOf, Brought, PageTrue, KeysTrue, AnswersTrue, RowSound;
    var v := RunFrom(w, steps);
    assert SlotSound(v.ledger, SlotOf(v.tickets[t])) && AppliedHere(v.ledger, v.tickets[t]);
    WritesNothingExactly(v.ledger, v.tickets[t].body);
  }

  /** A start names its way in and its answers under a key never used, and every request sent under the
      attempt carries them, with the part its key names and the place of that part in the file. */
  lemma SentIsThePart(w: World, steps: seq<Step>, t: nat)
    requires Initial(w)
    ensures var v := RunFrom(w, steps);
            t in v.tickets && v.page.attempt.Some? && v.tickets[t].key.attempt == v.page.attempt.value.key ==>
              var (attempt, r) := (v.page.attempt.value, v.tickets[t]);
              && v.page.checked.Some? && 1 <= r.key.index <= |v.page.checked.value.parts|
              && r.body == Body(attempt.mode, v.page.checked.value.parts[r.key.index - 1], r.key.index,
                                |v.page.checked.value.parts|, attempt.answers)
  {
    hide RunFrom;
    assert KeysTrue(RunFrom(w, steps));
  }

  lemma StartIsNamed(w: World, steps: seq<Step>, mode: Mode, answers: string)
    requires Initial(w) && CanStart(RunFrom(w, steps).page)
    ensures Steppable(RunFrom(w, steps))
    ensures var v := RunFrom(w, steps); var n := Next(v, PressStart(mode, answers));
            && n.page.attempt == Some(Attempt(mode, answers, v.nextAttempt))
            && (forall t :: t in v.tickets ==> v.tickets[t].key.attempt < v.nextAttempt)
            && (n.page.run.Sending? ==> n.waiting in n.tickets && n.tickets[n.waiting].key == Key(v.nextAttempt, n.page.run.index))
  {
    hide RunFrom, Sound, FactsHold, InThrough, AnswersTrue, AppliedTrue, AttemptTrue, DoneThrough, PassesOver;
    var v := RunFrom(w, steps);
    InvariantSteps(v);
    assert KeysTrue(v);
    StartReady(v.page, mode, answers, v.nextAttempt);
    ProceedCoherent(Started(v.page, mode, answers, v.nextAttempt), 1);
  }

  /** The answer the page waits for is noted as the server gave it, last in the list of its mode. */
  lemma AnswerReported(w: World, steps: seq<Step>)
    requires Initial(w)
    requires var v := RunFrom(w, steps); v.page.run.Sending? && v.waiting in v.replies && v.replies[v.waiting].Wrote?
    ensures Steppable(RunFrom(w, steps)) && RunFrom(w, steps).page.attempt.Some?
    ensures var v := RunFrom(w, steps); var (was, now) := (v.page.done, Next(v, AnswerReaches).page.done);
            var result := v.replies[v.waiting].result;
            if v.page.attempt.value.mode == Move then now.moved == was.moved + [result] && now.added == was.added
            else now.added == was.added + [result] && now.moved == was.moved
  {
    hide RunFrom, Sound, FactsHold, InThrough, KeysTrue, AnswersTrue, AppliedTrue, AttemptTrue, DoneThrough, PassesOver;
    var v := RunFrom(w, steps);
    InvariantSteps(v);
    AwaitedAnswer(v, v.replies[v.waiting].result);
    NotedReady(v.page, v.replies[v.waiting].result);
    ProceedCoherent(Noted(v.page, v.replies[v.waiting].result), v.page.run.index + 1);
  }

  /** A refusal or a lost connection stops the run on its part with everything reported kept; the part may
      be tried again unless it was refused for balances, which only a new check gets past. */
  lemma StopsKeep(w: World, steps: seq<Step>, step: Step)
    requires Initial(w)
    requires var v := RunFrom(w, steps);
             && v.page.run.Sending?
             && (step.ConnectionLost? || (step.AnswerReaches? && v.waiting in v.replies && v.replies[v.waiting].Refused?))
    ensures Steppable(RunFrom(w, steps))
    ensures var v := RunFrom(w, steps); var (p, n) := (v.page, Next(v, step).page);
            var byBalances := step.AnswerReaches? && v.replies[v.waiting].byBalances;
            && n == p.(run := n.run) && n.run.Stopped? && n.run.index == p.run.index
            && (n.run.answered <==> step.AnswerReaches?) && (n.run.byBalances <==> byBalances)
            && (CanTryAgain(n) <==> !byBalances)
  {
    hide RunFrom;
    InvariantSteps(RunFrom(w, steps));
  }

  /** A check that fails is given up, and what had been checked before stays. */
  lemma CheckGivenUp(w: World, steps: seq<Step>)
    requires Initial(w)
    ensures Steppable(RunFrom(w, steps))
    ensures var v := RunFrom(w, steps); Next(v, CheckStops) == v.(page := v.page.(checking := None))
  {
    hide RunFrom, Coherent;
    InvariantSteps(RunFrom(w, steps));
  }

  /** A key is never sent with two different requests. */
  lemma OneKeyOneRequest(w: World, steps: seq<Step>, t: nat, u: nat)
    requires Initial(w)
    ensures var v := RunFrom(w, steps);
            t in v.tickets && u in v.tickets && v.tickets[t].key == v.tickets[u].key ==> v.tickets[t] == v.tickets[u]
  {
    hide RunFrom;
    assert KeysTrue(RunFrom(w, steps));
  }

  /** So the server never meets a key it knows with a request it does not: no arrival is refused for that. */
  lemma NoKeyConflict(w: World, steps: seq<Step>, t: nat)
    requires Initial(w)
    ensures var v := RunFrom(w, steps);
            t in v.tickets ==>
              var slot := Slot(v.tickets[t].body.mode, v.tickets[t].key);
              slot in v.ledger.records ==> v.ledger.records[slot].body == v.tickets[t].body
  {
    hide RunFrom;
    var v := RunFrom(w, steps);
    assert KeysTrue(v) && AnswersTrue(v);
    if t in v.tickets {
      var slot := Slot(v.tickets[t].body.mode, v.tickets[t].key);
      if slot in v.ledger.records {
        var u :| u in v.tickets && v.tickets[u] == Request(slot.key, v.ledger.records[slot].body);
        assert v.tickets[u].key == v.tickets[t].key;
      }
    }
  }

  /** What became of a part the run has behind it: passed over and never sent, or answered and applied,
      once for each answer that is stored or was cleared away. */
  ghost predicate PartIn(w: World, j: nat)
    requires Coherent(w.page) && w.page.attempt.Some? && 1 <= j <= |w.page.checked.value.parts|
  {
    var (p, l, slot) := (w.page, w.ledger, PartSlot(w.page, j));
    if PassesOver(p.checked.value, p.attempt.value.mode, j) then PassedListed(p.done, j) && l.applied[slot] == 0
    else
      && AnswerListed(p.done, j) && l.applied[slot] > 0
      && l.applied[slot] == l.expired[slot] + if slot in l.records then 1 else 0
  }

  /** Over every run, the parts applied and the parts passed over form a prefix of the file: all before
      the part the run is on are one or the other, none after it was applied, and none passed over ever is. */
  lemma PartsFormPrefix(w: World, steps: seq<Step>, j: nat)
    requires Initial(w)
    requires var p := RunFrom(w, steps).page; p.attempt.Some? && Coherent(p) && 1 <= j <= |p.checked.value.parts|
    ensures var v := RunFrom(w, steps);
            && (j <= Behind(v.page) ==> PartIn(v, j))
            && (j > Frontier(v.page) ==> v.ledger.applied[PartSlot(v.page, j)] == 0)
            && (PassesOver(v.page.checked.value, v.page.attempt.value.mode, j) ==> v.ledger.applied[PartSlot(v.page, j)] == 0)
  {
    hide RunFrom, AnswersTrue, KeysTrue, RowSound, PassesOver, InOrder, FactsHold, InThrough;
    var v := RunFrom(w, steps);
    var slot := PartSlot(v.page, j);
    assert SlotSound(v.ledger, slot) && AttemptTrue(v);
    if v.ledger.applied[slot] > 0 {
      assert SentUnder(v, slot);
      var t :| t in v.tickets && SlotOf(v.tickets[t]) == slot;
      assert v.tickets[t].key == Key(v.page.attempt.value.key, j);
    }
    if j <= Behind(v.page) { assert ReportedAsIs(v.page, j); }
  }

  /** At every stop on part `i`, "Parts 1 to i-1 are in" is true: each is reported, in order, was applied
      or passed over, and everything it brings is known here; and nothing after part `i` was applied. */
  lemma StopNoticeTrue(w: World, steps: seq<Step>)
    requires Initial(w)
    ensures var v := RunFrom(w, steps); var p := v.page;
            p.run.Stopped? ==>
              && Coherent(p) && p.attempt.Some? && 1 <= p.run.index <= |p.checked.value.parts|
              && DoneThrough(p, p.run.index - 1)
              && (forall j :: 1 <= j < p.run.index ==> PartIn(v, j))
              && (forall j :: 0 <= j < p.run.index - 1 ==> BroughtIn(v.ledger, p.attempt.value.mode, p.checked.value.parts[j]))
              && (forall j :: p.run.index < j <= |p.checked.value.parts| ==> v.ledger.applied[PartSlot(p, j)] == 0)
              && PassesEarly(p)
  {
    hide RunFrom, DoneThrough, BroughtIn, PartIn, PassesOver, Sound, KeysTrue, AnswersTrue, AppliedTrue, AttemptTrue;
    var v := RunFrom(w, steps);
    assert PageTrue(v);
    if v.page.run.Stopped? {
      forall j | 1 <= j <= |v.page.checked.value.parts|
        ensures (j < v.page.run.index ==> PartIn(v, j)) && (j > v.page.run.index ==> v.ledger.applied[PartSlot(v.page, j)] == 0)
      {
        PartsFormPrefix(w, steps, j);
      }
    }
  }

  /** A run that reports success has every part reported, in order, and applied or passed over, with
      everything they bring known here; and the last part was never passed over. */
  lemma SuccessTrue(w: World, steps: seq<Step>)
    requires Initial(w)
    ensures var v := RunFrom(w, steps); var p := v.page;
            p.run.Finished? ==>
              && Coherent(p) && p.attempt.Some? && DoneThrough(p, |p.checked.value.parts|)
              && (forall j :: 1 <= j <= |p.checked.value.parts| ==> PartIn(v, j))
              && (forall j :: 0 <= j < |p.checked.value.parts| ==> BroughtIn(v.ledger, p.attempt.value.mode, p.checked.value.parts[j]))
              && PassesEarly(p)
  {
    hide RunFrom, DoneThrough, BroughtIn, PartIn, PassesOver, Sound, KeysTrue, AnswersTrue, AppliedTrue, AttemptTrue;
    var v := RunFrom(w, steps);
    assert PageTrue(v);
    if v.page.run.Finished? {
      forall j | 1 <= j <= |v.page.checked.value.parts| ensures PartIn(v, j) { PartsFormPrefix(w, steps, j); }
    }
  }

  /**
   A part a move would pass over is one whose sending would write nothing exactly when all its staged
   rows are still here; so it holds however long ago its preview was read, unless somebody has discarded
   one of them from the queue since.
   */
  lemma PassedWouldWriteNothing(w: World, steps: seq<Step>, index: nat, answers: string)
    requires Initial(w)
    requires var p := RunFrom(w, steps).page;
             && p.checked.Some? && 1 <= index <= |p.checked.value.parts| == |p.checked.value.facts|
             && PassesOver(p.checked.value, Move, index)
    ensures var (l, file) := (RunFrom(w, steps).ledger, RunFrom(w, steps).page.checked.value);
            var (part, facts) := (file.parts[index - 1], file.facts[index - 1]);
            var body := Body(Move, part, index, |file.parts|, answers);
            && (WriteRows(l, ResultOf(l, body)) == l <==> forall o :: o in part.staged ==> Found(l, o))
            && ((forall o :: o in part.staged ==> l.discarded[o] == facts.discards[o]) ==> WriteRows(l, ResultOf(l, body)) == l)
  {
    hide RunFrom, ResultOf, WriteRows, AlreadyIn;
    var v := RunFrom(w, steps);
    var (part, facts) := (v.page.checked.value.parts[index - 1], v.page.checked.value.facts[index - 1]);
    assert PageTrue(v);
    assert StillIn(v.ledger, part, facts.discards);
    WritesNothingExactly(v.ledger, Body(Move, part, index, |v.page.checked.value.parts|, answers));
  }

  /**
   Trying a lost part again finds out: if the part had been written, the retry writes nothing, is answered
   with what was written the first time, and the run goes on past that part.
   */
  lemma TryAgainFindsOut(w: World, steps: seq<Step>, verdict: Verdict)
    requires Initial(w)
    requires var v := RunFrom(w, steps);
             && CanTryAgain(v.page)
             && Slot(v.page.attempt.value.mode, Key(v.page.attempt.value.key, v.page.run.index)) in v.ledger.records
    ensures var v := RunFrom(w, steps);
            var end := After(v, [PressTryAgain, Arrive(v.nextTicket, verdict, true), AnswerReaches]);
            && end.ledger == v.ledger
            && Reported(end.page.done, v.page.run.index)
            && (end.page.run.Finished? || (end.page.run.Sending? && end.page.run.index > v.page.run.index))
  {
    hide RunFrom, AllRows, Distinct, Invariant, Next, PassesOver, Reported, CanTryAgain, After;
    var v := RunFrom(w, steps);
    RetryArrives(v, verdict);
    InvariantSteps(v);
    StepKeeps(v, PressTryAgain);
    var sent := Next(v, PressTryAgain);
    InvariantSteps(sent);
    StepKeeps(sent, Arrive(v.nextTicket, verdict, true));
    var arrived := Next(sent, Arrive(v.nextTicket, verdict, true));
    InvariantSteps(arrived);
    StepKeeps(arrived, AnswerReaches);
    AfterThree(v, PressTryAgain, Arrive(v.nextTicket, verdict, true), AnswerReaches);
    RetryGoesOn(arrived);
  }

  lemma AfterFirst(w: World, a: Step, rest: seq<Step>)
    requires Invariant(w)
    ensures Steppable(w) && Invariant(Next(w, a)) && After(w, [a] + rest) == After(Next(w, a), rest)
  {
    InvariantSteps(w);
    StepKeeps(w, a);
    hide Invariant, Next, Steppable;
    assert ([a] + rest)[1..] == rest;
  }

  lemma AfterThree(w: World, a: Step, b: Step, c: Step)
    requires Invariant(w) && Invariant(Next(w, a)) && Invariant(Next(Next(w, a), b))
    ensures After(w, [a, b, c]) == Next(Next(Next(w, a), b), c)
  {
    hide Next, Sound, PageTrue, KeysTrue, AnswersTrue, Steppable;
    AfterFirst(w, a, [b, c]);
    AfterFirst(Next(w, a), b, [c]);
    AfterFirst(Next(Next(w, a), b), c, []);
    assert [a, b, c] == [a] + [b, c] && [b, c] == [b] + [c] && [c] == [c] + [];
  }

  /** The retry travels under the same key, with the same request, so it meets the stored answer. */
  lemma RetryArrives(v: World, verdict: Verdict)
    requires Invariant(v) && CanTryAgain(v.page)
    requires var slot := Slot(v.page.attempt.value.mode, Key(v.page.attempt.value.key, v.page.run.index));
             slot in v.ledger.records
    ensures Invariant(Next(v, PressTryAgain))
    ensures var sent := Next(v, PressTryAgain);
            var arrived := Next(sent, Arrive(v.nextTicket, verdict, true));
            && arrived.ledger == v.ledger && arrived.page == sent.page && arrived.page.run == Sending(v.page.run.index)
            && arrived.waiting in arrived.replies && arrived.replies[arrived.waiting].Wrote?
            && arrived.replies[arrived.waiting].result.index == v.page.run.index
  {
    hide AllRows, Distinct, DoneThrough, FactsHold, InThrough, RowSound, AttemptTrue, AppliedTrue, AnswersTrue, PassesOver, WroteTrue;
    StepKeeps(v, PressTryAgain);
    var sent := Next(v, PressTryAgain);
    var r := RequestAt(v.page.checked.value, v.page.attempt.value, v.page.run.index);
    var slot := Slot(r.body.mode, r.key);
    assert sent.tickets[v.nextTicket] == r && v.nextTicket in sent.flights && sent.ledger == v.ledger;
    StoredAnswer(sent, v.nextTicket);
    assert WroteTrue(sent.ledger, r.body, sent.ledger.records[slot].result);
    AnswerIndex(sent.ledger, r.body, sent.ledger.records[slot].result);
  }

  lemma AnswerIndex(l: Ledger, body: Body, result: Result)
    requires WroteTrue(l, body, result)
    ensures result.index == body.index
  {
  }

  lemma RetryGoesOn(arrived: World)
    requires Invariant(arrived) && arrived.page.run.Sending? && arrived.waiting in arrived.replies
    requires arrived.replies[arrived.waiting].Wrote? && arrived.replies[arrived.waiting].result.index == arrived.page.run.index
    ensures var end := Next(arrived, AnswerReaches);
            && end.ledger == arrived.ledger && Reported(end.page.done, arrived.page.run.index)
            && (end.page.run.Finished? || (end.page.run.Sending? && end.page.run.index > arrived.page.run.index))
  {
    hide Sound, FactsHold, InThrough, AnswersTrue, KeysTrue;
    var p, result := arrived.page, arrived.replies[arrived.waiting].result;
    NotedReady(p, result);
    var q := Noted(p, result);
    ProceedCoherent(q, p.run.index + 1);
    var end := Proceed(q, p.run.index + 1);
    assert DoneThrough(end, Behind(end));
    assert ReportedAsIs(end, p.run.index);
  }

  // ---------------------------------------------------------------- two runs

  lemma {:induction false} AfterLast(w: World, steps: seq<Step>, last: Step)
    requires Invariant(w)
    ensures Invariant(After(w, steps)) && Steppable(After(w, steps))
    ensures After(w, steps + [last]) == Next(After(w, steps), last)
    decreases |steps|
  {
    hide Invariant, Next, Steppable;
    EveryRunKeeps(w, steps);
    InvariantSteps(After(w, steps));
    if steps == [] {
      AfterFirst(w, last, []);
      assert [] + [last] == [last] + [];
    } else {
      AfterFirst(w, steps[0], steps[1..]);
      AfterFirst(w, steps[0], steps[1..] + [last]);
      AfterLast(Next(w, steps[0]), steps[1..], last);
      assert steps + [last] == [steps[0]] + (steps[1..] + [last]) && steps == [steps[0]] + steps[1..];
    }
  }

  /** One step more of a run from a page just opened. */
  lemma OnceMore(w: World, steps: seq<Step>, v: World, last: Step) returns (longer: seq<Step>, n: World)
    requires Initial(w) && v == RunFrom(w, steps)
    ensures longer == steps + [last] && Steppable(v) && n == Next(v, last) == RunFrom(w, longer)
  {
    hide Next, Steppable;
    InitialHolds(w);
    AfterLast(w, steps, last);
    longer, n := steps + [last], Next(v, last);
  }

  /** A page just opened beside a ledger that holds one staged row, or none. */
  function Opened(queue: multiset<Origin>): World {
    World(NEW_PAGE, Ledger(multiset{}, queue, map[], queue, multiset{}, multiset{}, map[], multiset{}), map[], {}, map[], 0, 0, 0)
  }

  lemma OpenedHolds(queue: multiset<Origin>)
    requires forall o: Origin :: queue[o] <= 1
    ensures Initial(Opened(queue)) && RunFrom(Opened(queue), []) == Opened(queue)
  {
  }

  const STAGED := Part([], [], ["o"], 0)
  const OTHER := Part(["x"], [], [], 0)

  /** A file of two parts chosen and read, the first found in by its one staged row. */
  lemma TwoPartsRead() returns (steps: seq<Step>, v: World, facts: seq<Facts>)
    ensures Initial(Opened(multiset{"o"})) && v == RunFrom(Opened(multiset{"o"}), steps)
    ensures v == Opened(multiset{"o"}).(page := Page(Some(Checked([STAGED, OTHER], facts)), None, None, NOTHING_DONE, Idle))
    ensures |facts| == 2 && AlreadyIn(STAGED, facts[0], 1).Some?
  {
    hide RunFrom, Initial, AlreadyIn;
    var w := Opened(multiset{"o"});
    OpenedHolds(multiset{"o"});
    steps, v := OnceMore(w, [], w, ChooseAFile([STAGED, OTHER]));
    assert v.page == Page(None, Some(Checked([STAGED, OTHER], [])), None, NOTHING_DONE, Idle);
    facts := [Preview(w.ledger, STAGED), Preview(w.ledger, OTHER)];
    assert [] + [facts[0]] == [facts[0]] && [facts[0]] + [facts[1]] == facts;
    steps, v := OnceMore(w, steps, v, PreviewNextPart);
    assert v.page == Page(None, Some(Checked([STAGED, OTHER], [facts[0]])), None, NOTHING_DONE, Idle);
    steps, v := OnceMore(w, steps, v, PreviewNextPart);
    StagedFoundIn(w.ledger);
  }

  lemma StagedFoundIn(l: Ledger)
    requires "o" in l.queue
    ensures AlreadyIn(STAGED, Preview(l, STAGED), 1).Some?
  {
    PreviewCounts(l, STAGED);
  }

  /** The failing run of a part passed over: found in by its preview, its staged row discarded before
      the move starts, it is passed over although sending it would write the row again. */
  lemma PassedThenDiscarded() returns (steps: seq<Step>, v: World)
    ensures Initial(Opened(multiset{"o"})) && v == RunFrom(Opened(multiset{"o"}), steps)
    ensures v.page.checked.Some? && v.page.checked.value.parts == [STAGED, OTHER]
    ensures v.page.run == Sending(2) && PassedListed(v.page.done, 1)
    ensures WriteRows(v.ledger, ResultOf(v.ledger, Body(Move, STAGED, 1, 2, ""))) != v.ledger
  {
    hide RunFrom, Initial, AlreadyIn, WriteRows, ResultOf;
    var w := Opened(multiset{"o"});
    var facts;
    steps, v, facts := TwoPartsRead();
    steps, v := OnceMore(w, steps, v, DiscardStaged("o"));
    assert v.ledger.queue == multiset{} && v.ledger.books == multiset{};
    var p := v.page;
    var q := PassPart(Started(p, Move, "", 0), 1);
    assert Proceed(Started(p, Move, "", 0), 1) == Proceed(q, 2) == q.(run := Sending(2));
    steps, v := OnceMore(w, steps, v, PressStart(Move, ""));
    assert q.done.passed == [AlreadyIn(STAGED, facts[0], 1).value];
    assert v.page.done.passed[0].index == 1 by { PassedIndex(STAGED, facts[0], 1); }
    assert "o" in Brought(Move, STAGED) && !Found(v.ledger, "o");
    WritesNothingExactly(v.ledger, Body(Move, STAGED, 1, 2, ""));
  }

  lemma PassedIndex(part: Part, facts: Facts, index: nat)
    ensures AlreadyIn(part, facts, index).Some? ==> AlreadyIn(part, facts, index).value.index == index
  {
  }

  const LIVE := Part(["o"], [], [], 0)
  const LIVE_SLOT := Slot(Add, Key(0, 1))
  const LIVE_REQUEST := Request(Key(0, 1), Body(Add, LIVE, 1, 1, ""))

  lemma OnePartRead() returns (steps: seq<Step>, v: World, facts: Facts)
    ensures Initial(Opened(multiset{})) && v == RunFrom(Opened(multiset{}), steps)
    ensures v == Opened(multiset{}).(page := Page(Some(Checked([LIVE], [facts])), None, None, NOTHING_DONE, Idle))
  {
    hide RunFrom, Initial, Preview;
    var w := Opened(multiset{});
    OpenedHolds(multiset{});
    steps, v := OnceMore(w, [], w, ChooseAFile([LIVE]));
    assert v.page == Page(None, Some(Checked([LIVE], [])), None, NOTHING_DONE, Idle);
    facts := Preview(w.ledger, LIVE);
    assert [] + [facts] == [facts];
    steps, v := OnceMore(w, steps, v, PreviewNextPart);
  }

  lemma OnePartSent() returns (steps: seq<Step>, v: World, facts: Facts)
    ensures Initial(Opened(multiset{})) && v == RunFrom(Opened(multiset{}), steps)
    ensures v.page == Page(Some(Checked([LIVE], [facts])), None, Some(Attempt(Add, "", 0)), NOTHING_DONE, Sending(1))
    ensures v == Opened(multiset{}).(page := v.page, tickets := map[0 := LIVE_REQUEST], flights := {0}, nextTicket := 1, nextAttempt := 1)
    ensures !Found(v.ledger, "o")
  {
    hide RunFrom, Initial, Coherent, PassesEarly;
    steps, v, facts := OnePartRead();
    assert Proceed(Started(v.page, Add, "", 0), 1) == Started(v.page, Add, "", 0).(run := Sending(1));
    steps, v := OnceMore(Opened(multiset{}), steps, v, PressStart(Add, ""));
  }

  /** Handling the part writes its row if it is not here, and nothing if it is. */
  lemma LiveHandled(l: Ledger)
    requires LIVE_SLOT !in l.records
    ensures var (after, reply) := Handle(l, LIVE_REQUEST, Accepts);
      && after.applied[LIVE_SLOT] == l.applied[LIVE_SLOT] + 1 && LIVE_SLOT in after.records
      && after.arrived["o"] == l.arrived["o"] + (if Found(l, "o") then 0 else 1)
      && Found(after, "o")
  {
    assert AllRows(LIVE) == ["o"];
    assert Missing(l, ["o"]) == if Found(l, "o") then [] else ["o"];
  }

  /** The connection is lost before the part arrives, and its answer is cleared away before anybody asks again. */
  lemma OnePartLost() returns (steps: seq<Step>, v: World, facts: Facts)
    ensures Initial(Opened(multiset{})) && v == RunFrom(Opened(multiset{}), steps)
    ensures v.page == Page(Some(Checked([LIVE], [facts])), None, Some(Attempt(Add, "", 0)), NOTHING_DONE, Stopped(1, false, false))
    ensures v.tickets == map[0 := LIVE_REQUEST] && v.flights == {0} && v.nextTicket == 1
    ensures v.ledger.applied[LIVE_SLOT] == 1 && LIVE_SLOT !in v.ledger.records && v.ledger.arrived["o"] == 1 && Found(v.ledger, "o")
  {
    hide RunFrom, Initial, Handle, ExpireAnswer, Found;
    var w := Opened(multiset{});
    steps, v, facts := OnePartSent();
    steps, v := OnceMore(w, steps, v, ConnectionLost);
    assert v.page == Page(Some(Checked([LIVE], [facts])), None, Some(Attempt(Add, "", 0)), NOTHING_DONE, Stopped(1, false, false));
    LiveHandled(v.ledger);
    steps, v := OnceMore(w, steps, v, Arrive(0, Accepts, false));
    LiveCleared(v.ledger);
    steps, v := OnceMore(w, steps, v, AnswerExpires(LIVE_SLOT));
  }

  lemma LiveCleared(l: Ledger)
    ensures var after := ExpireAnswer(l, LIVE_SLOT);
      && LIVE_SLOT !in after.records && after.applied == l.applied && after.arrived == l.arrived
      && (Found(after, "o") <==> Found(l, "o"))
  {
  }

  /** A run that applies a part twice under one key: its answer is lost, then cleared away, and the
      retry finds no answer stored. The row is written once all the same. */
  lemma AppliedTwice() returns (steps: seq<Step>, v: World)
    ensures Initial(Opened(multiset{})) && v == RunFrom(Opened(multiset{}), steps)
    ensures v.ledger.applied[LIVE_SLOT] == 2 && v.ledger.arrived["o"] == 1
  {
    hide RunFrom, Initial, Handle;
    var w := Opened(multiset{});
    var facts;
    steps, v, facts := OnePartLost();
    steps, v := OnceMore(w, steps, v, PressTryAgain);
    assert v.tickets[1] == LIVE_REQUEST && 1 in v.flights;
    LiveHandled(v.ledger);
    steps, v := OnceMore(w, steps, v, Arrive(1, Accepts, true));
  }
}
