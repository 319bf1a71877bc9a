/**
 The page half of importing a file in parts: checking it part by part, the loop that passes over or
 sends one part after another, and what it says it has done.
 */
module LedgerImport {
  import opened Options
  import opened Digits
  import opened LedgerServer

  /** The key a part is sent under, as it is spelled. */
  function KeyText(attempt: string, index: nat): string {
    attempt + "-" + Decimal(index)
  }

  /** Attempts are named by UUIDs, all of one length, so a spelled key names one attempt and one part. */
  lemma KeyTextUnique(a: string, i: nat, b: string, j: nat)
    requires |a| == |b| && KeyText(a, i) == KeyText(b, j)
    ensures a == b && i == j
  {
    var k := KeyText(a, i);
    assert a == k[..|a|] && b == k[..|a|];
    assert Decimal(i) == k[|a| + 1..] == Decimal(j);
    DecimalNumber(i);
    DecimalNumber(j);
  }

  datatype Checked = Checked(parts: seq<Part>, facts: seq<Facts>)

  /** The way in, the answers every part is sent with, and the key the parts' keys are built from. */
  datatype Attempt = Attempt(mode: Mode, answers: string, key: nat)

  datatype PassedPart = PassedPart(index: nat, entries: nat, deleted: nat, staged: nat)

  datatype DoneLists = DoneLists(added: seq<Result>, moved: seq<Result>, passed: seq<PassedPart>) {
    function Count(): nat {
      |added| + |moved| + |passed|
    }
  }

  const NOTHING_DONE := DoneLists([], [], [])

  /** A run sends a part and waits for it, or has stopped on one, or has finished. */
  datatype Run = Idle | Sending(index: nat) | Stopped(index: nat, answered: bool, byBalances: bool) | Finished

  datatype Page = Page(checked: Option<Checked>, checking: Option<Checked>, attempt: Option<Attempt>, done: DoneLists, run: Run)

  const NEW_PAGE := Page(None, None, None, NOTHING_DONE, Idle)

  function AlreadyIn(part: Part, facts: Facts, index: nat): Option<PassedPart> {
    if facts.waiting > 0 || part.budgetAmounts > 0 then None
    else if facts.alreadyHere != |part.live| || facts.deletedAlreadyHere != |part.deleted| || facts.stagedAlreadyHere != |part.staged| then None
    else Some(PassedPart(index, |part.live|, |part.deleted|, |part.staged|))
  }

  /** Whether the run passes a part over: a move, any part but the last, found in already by its preview. */
  predicate PassesOver(file: Checked, mode: Mode, index: nat)
    requires 1 <= index <= |file.parts| == |file.facts|
  {
    mode == Move && index < |file.parts| && AlreadyIn(file.parts[index - 1], file.facts[index - 1], index).Some?
  }

  function RequestAt(file: Checked, attempt: Attempt, index: nat): Request
    requires 1 <= index <= |file.parts|
  {
    Request(Key(attempt.key, index), Body(attempt.mode, file.parts[index - 1], index, |file.parts|, attempt.answers))
  }

  // ---------------------------------------------------------------- what the page keeps true

  predicate PassedListed(done: DoneLists, index: nat) {
    exists k :: 0 <= k < |done.passed| && done.passed[k].index == index
  }

  predicate AnswerListed(done: DoneLists, index: nat) {
    || (exists k :: 0 <= k < |done.added| && done.added[k].index == index)
    || (exists k :: 0 <= k < |done.moved| && done.moved[k].index == index)
  }

  predicate Reported(done: DoneLists, index: nat) {
    PassedListed(done, index) || AnswerListed(done, index)
  }

  function ResultIndices(results: seq<Result>): seq<nat> {
    seq(|results|, k requires 0 <= k < |results| => results[k].index)
  }

  function PassedIndices(passed: seq<PassedPart>): seq<nat> {
    seq(|passed|, k requires 0 <= k < |passed| => passed[k].index)
  }

  /** Parts from 1 to `n`, each after the one before. */
  predicate Rising(indices: seq<nat>, n: nat) {
    && (forall k :: 0 <= k < |indices| ==> 1 <= indices[k] <= n)
    && (forall i, k :: 0 <= i < k < |indices| ==> indices[i] < indices[k])
  }

  /** Every list tells its parts in order, up to part `n`. */
  predicate InOrder(done: DoneLists, n: nat) {
    && Rising(ResultIndices(done.added), n) && Rising(ResultIndices(done.moved), n)
    && Rising(PassedIndices(done.passed), n)
  }

  /** Whether a part's report is where it belongs: among the parts passed over, or among the answers. */
  predicate ReportedAsIs(p: Page, index: nat)
    requires p.checked.Some? && p.attempt.Some? && 1 <= index <= |p.checked.value.parts| == |p.checked.value.facts|
  {
    if PassesOver(p.checked.value, p.attempt.value.mode, index) then PassedListed(p.done, index) else AnswerListed(p.done, index)
  }

  /** The lists hold one report for each of the parts 1 to `n` and no other, in order, each in the list
      that says what became of it. */
  ghost predicate DoneThrough(p: Page, n: nat) {
    && p.checked.Some? && p.attempt.Some? && n <= |p.checked.value.parts| == |p.checked.value.facts|
    && p.done.Count() == n && InOrder(p.done, n)
    && (forall j :: 1 <= j <= n ==> ReportedAsIs(p, j))
    && (p.attempt.value.mode == Add ==> p.done.moved == [] && p.done.passed == [])
    && (p.attempt.value.mode == Move ==> p.done.added == [])
  }

  /** How many parts the run has behind it. */
  function Behind(p: Page): nat
    requires p.run.Finished? ==> p.checked.Some?
  {
    match p.run
    case Idle => 0
    case Sending(index) => if index > 0 then index - 1 else 0
    case Stopped(index, _, _) => if index > 0 then index - 1 else 0
    case Finished => |p.checked.value.parts|
  }

  ghost predicate Coherent(p: Page) {
    && (p.checked.Some? ==> 0 < |p.checked.value.parts| == |p.checked.value.facts|)
    && (p.checking.Some? ==> |p.checking.value.facts| < |p.checking.value.parts| && p.run.Idle?)
    && (p.attempt.Some? <==> !p.run.Idle?)
    && (p.attempt.Some? ==> p.checked.Some? && p.checking.None? && DoneThrough(p, Behind(p)))
    && (p.run.Sending? || p.run.Stopped? ==>
          && 1 <= p.run.index <= |p.checked.value.parts|
          && !PassesOver(p.checked.value, p.attempt.value.mode, p.run.index))
    && (p.run.Finished? ==> forall k :: 0 <= k < |p.done.passed| ==> p.done.passed[k].index < |p.checked.value.parts|)
  }

  /** A part reported as passed over is not the last one, and is reported with the counts of its rows. */
  predicate PassedAs(passed: PassedPart, parts: seq<Part>) {
    && 1 <= passed.index < |parts|
    && passed.entries == |parts[passed.index - 1].live| && passed.deleted == |parts[passed.index - 1].deleted|
    && passed.staged == |parts[passed.index - 1].staged|
  }

  ghost predicate PassesEarly(p: Page) {
    p.checked.Some? && forall k :: 0 <= k < |p.done.passed| ==> PassedAs(p.done.passed[k], p.checked.value.parts)
  }

  // ---------------------------------------------------------------- the loop

  function PassPart(p: Page, index: nat): Page
    requires p.checked.Some? && 1 <= index <= |p.checked.value.parts| == |p.checked.value.facts|
    requires p.attempt.Some? && PassesOver(p.checked.value, p.attempt.value.mode, index)
  {
    var passed := AlreadyIn(p.checked.value.parts[index - 1], p.checked.value.facts[index - 1], index).value;
    p.(done := p.done.(passed := p.done.passed + [passed]))
  }

  /** The loop from one part on: past every part found in already, to the next one sent or to the end. */
  function Proceed(p: Page, index: nat): Page
    requires p.checked.Some? && p.attempt.Some? && |p.checked.value.parts| == |p.checked.value.facts|
    requires 1 <= index <= |p.checked.value.parts| + 1
    decreases |p.checked.value.parts| + 1 - index
  {
    if index == |p.checked.value.parts| + 1 then p.(run := Finished)
    else if PassesOver(p.checked.value, p.attempt.value.mode, index) then Proceed(PassPart(p, index), index + 1)
    else p.(run := Sending(index))
  }

  /** A run about to take up part `index`, with everything before it reported. */
  ghost predicate Ready(p: Page, index: nat) {
    && p.checked.Some? && p.checking.None? && p.attempt.Some?
    && 0 < |p.checked.value.parts| == |p.checked.value.facts|
    && 1 <= index <= |p.checked.value.parts| + 1
    && DoneThrough(p, index - 1) && PassesEarly(p)
  }

  lemma PassKeepsReady(p: Page, index: nat)
    requires Ready(p, index) && index <= |p.checked.value.parts| && PassesOver(p.checked.value, p.attempt.value.mode, index)
    ensures Ready(PassPart(p, index), index + 1)
  {
    var q := PassPart(p, index);
    assert PassedIndices(q.done.passed) == PassedIndices(p.done.passed) + [index];
    InOrderNext(p.done, q.done, index - 1);
    forall j | 1 <= j <= index ensures ReportedAsIs(q, j) {
      if j == index {
        assert q.done.passed[|p.done.passed|].index == index;
      } else {
        assert ReportedAsIs(p, j);
        ReportedExtends(p.done, q.done, j);
      }
    }
  }

  lemma RisingNext(indices: seq<nat>, n: nat)
    requires Rising(indices, n)
    ensures Rising(indices, n + 1) && Rising(indices + [n + 1], n + 1)
  {
  }

  /** One report more, of the next part, in one of the lists. */
  lemma InOrderNext(before: DoneLists, after: DoneLists, n: nat)
    requires InOrder(before, n)
    requires || ResultIndices(after.added) == ResultIndices(before.added)
             || ResultIndices(after.added) == ResultIndices(before.added) + [n + 1]
    requires || ResultIndices(after.moved) == ResultIndices(before.moved)
             || ResultIndices(after.moved) == ResultIndices(before.moved) + [n + 1]
    requires || PassedIndices(after.passed) == PassedIndices(before.passed)
             || PassedIndices(after.passed) == PassedIndices(before.passed) + [n + 1]
    ensures InOrder(after, n + 1)
  {
    hide Rising, ResultIndices, PassedIndices;
    RisingNext(ResultIndices(before.added), n);
    RisingNext(ResultIndices(before.moved), n);
    RisingNext(PassedIndices(before.passed), n);
  }

  lemma ReportedExtends(before: DoneLists, after: DoneLists, j: nat)
    requires before.added <= after.added && before.moved <= after.moved && before.passed <= after.passed
    ensures AnswerListed(before, j) ==> AnswerListed(after, j)
    ensures PassedListed(before, j) ==> PassedListed(after, j)
  {
    if AnswerListed(before, j) {
      if k :| 0 <= k < |before.added| && before.added[k].index == j { assert after.added[k].index == j; }
      else { var k :| 0 <= k < |before.moved| && before.moved[k].index == j; assert after.moved[k].index == j; }
    }
    if PassedListed(before, j) {
      var k :| 0 <= k < |before.passed| && before.passed[k].index == j;
      assert after.passed[k].index == j;
    }
  }

  /** Where the run stands is not what has been reported. */
  lemma RunMoves(p: Page, run: Run, n: nat)
    requires DoneThrough(p, n)
    ensures DoneThrough(p.(run := run), n)
  {
    forall j | 1 <= j <= n ensures ReportedAsIs(p.(run := run), j) { assert ReportedAsIs(p, j); }
  }

  /** Wherever the loop comes to rest, every part before it has been reported or passed over, in order. */
  lemma {:induction false} ProceedCoherent(p: Page, index: nat)
    requires Ready(p, index)
    ensures var q := Proceed(p, index);
            && Coherent(q) && PassesEarly(q)
            && q.checked == p.checked && q.attempt == p.attempt && q.checking == p.checking
            && q.done.added == p.done.added && q.done.moved == p.done.moved
            && (q.run.Finished? || (q.run.Sending? && q.run.index >= index))
            && (forall j :: index <= j <= Behind(q) ==> PassesOver(p.checked.value, p.attempt.value.mode, j))
    decreases |p.checked.value.parts| + 1 - index
  {
    if index <= |p.checked.value.parts| && PassesOver(p.checked.value, p.attempt.value.mode, index) {
      PassKeepsReady(p, index);
      ProceedCoherent(PassPart(p, index), index + 1);
    } else {
      hide DoneThrough, InOrder;
      assert DoneThrough(p, index - 1);
      RunMoves(p, Proceed(p, index).run, index - 1);
    }
  }

  // ---------------------------------------------------------------- the handlers

  predicate Busy(p: Page) {
    p.checking.Some? || p.run.Sending?
  }

  function ChooseFile(p: Page, parts: seq<Part>): Page {
    if Busy(p) || parts == [] then p else Page(None, Some(Checked(parts, [])), None, NOTHING_DONE, Idle)
  }

  function CheckAgain(p: Page): Page {
    if Busy(p) || p.checked.None? || p.checked.value.parts == [] then p
    else Page(p.checked, Some(Checked(p.checked.value.parts, [])), None, NOTHING_DONE, Idle)
  }

  /** A new file takes the place of the checked one, a new check keeps it until it is done; either way what
      an attempt did is dropped, and a page at work or with nothing to check is left alone. */
  lemma CheckStartsAfresh(p: Page, parts: seq<Part>)
    ensures var n := ChooseFile(p, parts);
      if p.checking.Some? || p.run.Sending? || parts == [] then n == p
      else n.checked.None? && n.checking == Some(Checked(parts, [])) && n.attempt.None? && n.done.Count() == 0 && n.run.Idle?
    ensures var n := CheckAgain(p);
      if p.checking.Some? || p.run.Sending? || p.checked.None? || p.checked.value.parts == [] then n == p
      else n.checked == p.checked && n.checking == Some(Checked(p.checked.value.parts, []))
           && n.attempt.None? && n.done.Count() == 0 && n.run.Idle?
  {
  }

  /** One more part's preview has answered. */
  function ReadPart(p: Page, facts: Facts): Page
    requires p.checking.Some?
  {
    var read := p.checking.value.(facts := p.checking.value.facts + [facts]);
    if |read.facts| == |read.parts| then p.(checking := None, checked := Some(read)) else p.(checking := Some(read))
  }

  function ReadAll(p: Page, answers: seq<Facts>): Page
    decreases |answers|
  {
    if answers == [] || p.checking.None? then p else ReadAll(ReadPart(p, answers[0]), answers[1..])
  }

  /** A check offers the file once the previews of all its parts are read, each part with its own, and
      not before. */
  lemma {:induction false} CheckOffersFile(p: Page, answers: seq<Facts>)
    requires p.checking.Some? && |p.checking.value.facts| < |p.checking.value.parts|
    requires |p.checking.value.facts| + |answers| <= |p.checking.value.parts|
    ensures var read := p.checking.value.(facts := p.checking.value.facts + answers);
      ReadAll(p, answers) == if |read.facts| == |read.parts| then p.(checking := None, checked := Some(read))
                             else p.(checking := Some(read))
    decreases |answers|
  {
    if answers == [] {
      assert p.checking.value.facts + answers == p.checking.value.facts;
    } else {
      var q := ReadPart(p, answers[0]);
      assert p.checking.value.facts + answers == p.checking.value.facts + [answers[0]] + answers[1..];
      if q.checking.Some? {
        CheckOffersFile(q, answers[1..]);
      } else {
        assert answers == [answers[0]];
      }
    }
  }

  function CheckFails(p: Page): Page {
    p.(checking := None)
  }

  predicate CanStart(p: Page) {
    p.checked.Some? && p.checking.None? && p.run.Idle?
  }

  predicate CanTryAgain(p: Page) {
    p.run.Stopped? && !p.run.byBalances && p.checking.None?
  }

  function Started(p: Page, mode: Mode, answers: string, key: nat): Page {
    p.(attempt := Some(Attempt(mode, answers, key)), done := NOTHING_DONE)
  }

  function Start(p: Page, mode: Mode, answers: string, key: nat): Page
    requires Coherent(p) && CanStart(p)
  {
    Proceed(Started(p, mode, answers, key), 1)
  }

  function TryAgain(p: Page): Page
    requires Coherent(p) && CanTryAgain(p)
  {
    Proceed(p, p.run.index)
  }

  function Noted(p: Page, result: Result): Page
    requires p.attempt.Some?
  {
    if p.attempt.value.mode == Move then p.(done := p.done.(moved := p.done.moved + [result]))
    else p.(done := p.done.(added := p.done.added + [result]))
  }

  /** The part being waited for was written: its result is noted and the loop goes on. */
  function Answered(p: Page, result: Result): Page
    requires Coherent(p) && p.run.Sending?
  {
    Proceed(Noted(p, result), p.run.index + 1)
  }

  function RefusedPart(p: Page, byBalances: bool): Page
    requires p.run.Sending?
  {
    p.(run := Stopped(p.run.index, true, byBalances))
  }

  function LostPart(p: Page): Page
    requires p.run.Sending?
  {
    p.(run := Stopped(p.run.index, false, false))
  }

  lemma StartReady(p: Page, mode: Mode, answers: string, key: nat)
    requires Coherent(p) && CanStart(p)
    ensures Ready(Started(p, mode, answers, key), 1)
  {
  }

  lemma NotedReady(p: Page, result: Result)
    requires Coherent(p) && PassesEarly(p) && p.run.Sending? && result.index == p.run.index
    ensures Ready(Noted(p, result), p.run.index + 1)
  {
    var q := Noted(p, result);
    assert ResultIndices(p.done.moved + [result]) == ResultIndices(p.done.moved) + [p.run.index];
    assert ResultIndices(p.done.added + [result]) == ResultIndices(p.done.added) + [p.run.index];
    InOrderNext(p.done, q.done, p.run.index - 1);
    forall j | 1 <= j <= p.run.index ensures ReportedAsIs(q, j) {
      if j == p.run.index {
        if p.attempt.value.mode == Move {
          assert q.done.moved[|p.done.moved|].index == j;
        } else {
          assert q.done.added[|p.done.added|].index == j;
        }
      } else {
        assert ReportedAsIs(p, j);
        ReportedExtends(p.done, q.done, j);
      }
    }
  }

  /** A finished run ends with the answer to its last part: it is reported among the answers, never as passed over. */
  lemma LastPartAnswered(p: Page)
    requires Coherent(p) && p.run.Finished?
    ensures AnswerListed(p.done, |p.checked.value.parts|)
  {
    assert ReportedAsIs(p, |p.checked.value.parts|);
  }

  /** The page itself: its fields, and the handlers that change them. */
  class ImportPage {
    var checked: Option<Checked>
    var checking: Option<Checked>
    var attempt: Option<Attempt>
    var done: DoneLists
    var run: Run

    function View(): Page
      reads this
    {
      Page(checked, checking, attempt, done, run)
    }

    constructor ()
      ensures View() == NEW_PAGE
    {
      checked, checking, attempt, done, run := None, None, None, NOTHING_DONE, Idle;
    }

    /** The loop of the run, up to the next part that is sent. */
    method ProceedFrom(start: nat)
      requires Ready(View(), start)
      modifies this
      ensures View() == Proceed(old(View()), start)
    {
      var file, mode := checked.value, attempt.value.mode;
      var index := start;
      while index <= |file.parts| && PassesOver(file, mode, index)
        invariant checked == Some(file) && attempt.Some? && attempt.value.mode == mode
        invariant Ready(View(), index)
        invariant Proceed(View(), index) == Proceed(old(View()), start)
        decreases |file.parts| - index
      {
        PassKeepsReady(View(), index);
        var passed := AlreadyIn(file.parts[index - 1], file.facts[index - 1], index);
        ghost var next := PassPart(View(), index);
        done := done.(passed := done.passed + [passed.value]);
        assert View() == next;
        index := index + 1;
      }
      run := if index <= |file.parts| then Sending(index) else Finished;
    }

    method BeginCheck(file: Option<seq<Part>>)
      modifies this
      ensures View() == match file case Some(parts) => ChooseFile(old(View()), parts) case None => CheckAgain(old(View()))
    {
      if checking.Some? || run.Sending? { return; }
      match file
      case Some(parts) =>
        if parts == [] { return; }
        run, attempt, done := Idle, None, NOTHING_DONE;
        checked := None;
        checking := Some(Checked(parts, []));
      case None =>
        if checked.None? || checked.value.parts == [] { return; }
        run, attempt, done := Idle, None, NOTHING_DONE;
        checking := Some(Checked(checked.value.parts, []));
    }

    method PreviewAnswered(facts: Facts)
      requires checking.Some?
      modifies this
      ensures View() == ReadPart(old(View()), facts)
    {
      var read := checking.value.(facts := checking.value.facts + [facts]);
      if |read.facts| == |read.parts| {
        checking, checked := None, Some(read);
      } else {
        checking := Some(read);
      }
    }

    /** A press of the one button: the stopped part again, or a new attempt under a new key. */
    method Submit(mode: Mode, answers: string, key: nat)
      requires Coherent(View()) && (run.Stopped? ==> PassesEarly(View()))
      modifies this
      ensures View() == if CanTryAgain(old(View())) then TryAgain(old(View()))
                        else if CanStart(old(View())) then Start(old(View()), mode, answers, key)
                        else old(View())
    {
      if run.Stopped? {
        if run.byBalances || checking.Some? { return; }
        ProceedFrom(run.index);
      } else if checked.Some? && checking.None? && run.Idle? {
        StartReady(View(), mode, answers, key);
        attempt := Some(Attempt(mode, answers, key));
        done := NOTHING_DONE;
        ProceedFrom(1);
      }
    }

    method PartAnswered(reply: Reply)
      requires Coherent(View()) && PassesEarly(View()) && run.Sending? && (reply.Wrote? ==> reply.result.index == run.index)
      modifies this
      ensures View() == match reply case Wrote(result) => Answered(old(View()), result) case Refused(b) => RefusedPart(old(View()), b)
    {
      match reply
      case Wrote(result) =>
        NotedReady(View(), result);
        if attempt.value.mode == Move {
          done := done.(moved := done.moved + [result]);
        } else {
          done := done.(added := done.added + [result]);
        }
        ProceedFrom(run.index + 1);
      case Refused(byBalances) =>
        run := Stopped(run.index, true, byBalances);
    }
  }
}
