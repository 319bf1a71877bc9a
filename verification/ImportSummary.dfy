/** What a finished import says it did (src/client/LedgerFileImport.tsx, src/shared/ledger-file-import.ts):
    drift grouped within a part, merged over the parts, and each record counted once. */
module ImportSummary {
  import opened Options
  import opened Money
  import opened ExactText

  datatype Direction = Deposit | Withdrawal
  datatype Side = Income | Expense

  /** A group of entries that post to another side here than where they came from; an entry on its
      own is a group of one. */
  datatype Drift = Drift(currency: string, direction: Direction, there: Side, here: Side,
                         entries: nat, amount: string, categories: seq<string>)

  datatype Slot = Slot(currency: string, direction: Direction, there: Side, here: Side)

  function SlotOf(d: Drift): Slot {
    Slot(d.currency, d.direction, d.there, d.here)
  }

  // ---------------------------------------------------------------------------------------
  // The slot is a text: it names one slot.
  // ---------------------------------------------------------------------------------------

  function DirectionText(d: Direction): string {
    if d.Deposit? then "deposit" else "withdrawal"
  }

  function SideText(s: Side): string {
    if s.Income? then "income" else "expense"
  }

  function SlotText(s: Slot): string {
    s.currency + "|" + DirectionText(s.direction) + "|" + SideText(s.there) + "|" + SideText(s.here)
  }

  predicate NoBar(s: string) {
    '|' !in s
  }

  lemma AfterLastBar(a: string, x: string, i: nat)
    requires NoBar(x) && i < |a + "|" + x|
    ensures (a + "|" + x)[|a|] == '|' && (i > |a| ==> (a + "|" + x)[i] != '|')
  {
    if i > |a| { assert (a + "|" + x)[i] == x[i - |a| - 1]; }
  }

  /** A text is cut one way at its last bar. */
  lemma LastBar(a: string, x: string, b: string, y: string)
    requires NoBar(x) && NoBar(y) && a + "|" + x == b + "|" + y
    ensures a == b && x == y
  {
    var s := a + "|" + x;
    AfterLastBar(a, x, |b|);
    AfterLastBar(b, y, |a|);
    assert a == s[..|a|] && b == s[..|b|] && x == s[|a| + 1..] && y == s[|b| + 1..];
  }

  /** Whatever the currency is called, two slots written alike are one slot. */
  lemma SlotTextUnique(s: Slot, t: Slot)
    ensures SlotText(s) == SlotText(t) <==> s == t
  {
    if SlotText(s) == SlotText(t) {
      var (a, b) := (s.currency + "|" + DirectionText(s.direction), t.currency + "|" + DirectionText(t.direction));
      LastBar(a + "|" + SideText(s.there), SideText(s.here), b + "|" + SideText(t.there), SideText(t.here));
      LastBar(a, SideText(s.there), b, SideText(t.there));
      LastBar(s.currency, DirectionText(s.direction), t.currency, DirectionText(t.direction));
      assert SideText(s.here)[0] == SideText(t.here)[0] && SideText(s.there)[0] == SideText(t.there)[0];
      assert DirectionText(s.direction)[0] == DirectionText(t.direction)[0];
    }
  }

  // ---------------------------------------------------------------------------------------
  // What a list of groups holds, slot by slot.
  // ---------------------------------------------------------------------------------------

  function EntriesIn(ds: seq<Drift>, slot: Slot): nat {
    if ds == [] then 0
    else EntriesIn(ds[..|ds| - 1], slot) + if SlotOf(ds[|ds| - 1]) == slot then ds[|ds| - 1].entries else 0
  }

  function UnitsIn(ds: seq<Drift>, slot: Slot): int {
    if ds == [] then 0
    else UnitsIn(ds[..|ds| - 1], slot) + if SlotOf(ds[|ds| - 1]) == slot then UnitsOrZero(ds[|ds| - 1].amount) else 0
  }

  predicate NamedIn(ds: seq<Drift>, slot: Slot, name: string) {
    exists i :: 0 <= i < |ds| && SlotOf(ds[i]) == slot && name in ds[i].categories
  }

  predicate Present(ds: seq<Drift>, slot: Slot) {
    exists i :: 0 <= i < |ds| && SlotOf(ds[i]) == slot
  }

  predicate ReadableAmounts(ds: seq<Drift>) {
    forall i :: 0 <= i < |ds| ==> MoneyUnits(ds[i].amount).Some?
  }

  predicate OneEach(ds: seq<Drift>) {
    forall i, j :: 0 <= i < j < |ds| ==> SlotOf(ds[i]) != SlotOf(ds[j])
  }

  predicate NoRepeats(names: seq<string>) {
    forall i, j :: 0 <= i < j < |names| ==> names[i] != names[j]
  }

  /** `[...new Set(names)]`: each name once, where it first stood. */
  function Distinct(names: seq<string>): (r: seq<string>)
    ensures NoRepeats(r) && (forall n :: n in r <==> n in names)
  {
    if names == [] then []
    else
      var (rest, last) := (Distinct(names[..|names| - 1]), names[|names| - 1]);
      assert names == names[..|names| - 1] + [last];
      if last in rest then rest else rest + [last]
  }

  function FirstAt(names: seq<string>, name: string): (i: nat)
    requires name in names
    ensures i < |names| && names[i] == name && name !in names[..i]
  {
    if names[0] == name then 0
    else
      var i := FirstAt(names[1..], name);
      assert names[..i + 1] == [names[0]] + names[1..][..i];
      i + 1
  }

  lemma {:induction false} FirstStays(names: seq<string>, last: string, name: string)
    requires name in names
    ensures FirstAt(names + [last], name) == FirstAt(names, name)
  {
    if names[0] != name {
      assert (names + [last])[1..] == names[1..] + [last];
      FirstStays(names[1..], last, name);
    }
  }

  /** The names kept stand in the order in which they first stood. */
  lemma {:induction false} DistinctOrder(names: seq<string>, i: nat, j: nat)
    requires i < j < |Distinct(names)|
    ensures FirstAt(names, Distinct(names)[i]) < FirstAt(names, Distinct(names)[j])
  {
    var (front, last) := (names[..|names| - 1], names[|names| - 1]);
    assert names == front + [last];
    var (r, rest) := (Distinct(names), Distinct(front));
    FirstStays(front, last, r[i]);
    if j < |rest| {
      FirstStays(front, last, r[j]);
      DistinctOrder(front, i, j);
    } else {
      assert r[j] == last && last !in front;
    }
  }

  /** One group per slot, saying of each slot what the list says: entries, exact amount, categories. */
  ghost predicate Summarizes(groups: seq<Drift>, all: seq<Drift>) {
    && OneEach(groups)
    && (forall slot :: Present(groups, slot) <==> Present(all, slot))
    && (forall slot :: EntriesIn(groups, slot) == EntriesIn(all, slot) && UnitsIn(groups, slot) == UnitsIn(all, slot))
    && (forall slot, name :: NamedIn(groups, slot, name) <==> NamedIn(all, slot, name))
  }

  lemma EntriesAppend(ds: seq<Drift>, d: Drift, slot: Slot)
    ensures EntriesIn(ds + [d], slot) == EntriesIn(ds, slot) + if SlotOf(d) == slot then d.entries else 0
    ensures UnitsIn(ds + [d], slot) == UnitsIn(ds, slot) + if SlotOf(d) == slot then UnitsOrZero(d.amount) else 0
  {
    assert (ds + [d])[..|ds|] == ds;
  }

  /** Replacing one group moves its slot's figures by the difference, and no other's. */
  lemma {:induction false} FiguresReplaced(ds: seq<Drift>, k: nat, d: Drift, slot: Slot)
    requires k < |ds| && SlotOf(d) == SlotOf(ds[k])
    ensures EntriesIn(ds[k := d], slot) == EntriesIn(ds, slot) + if SlotOf(d) == slot then d.entries - ds[k].entries else 0
    ensures UnitsIn(ds[k := d], slot) ==
      UnitsIn(ds, slot) + if SlotOf(d) == slot then UnitsOrZero(d.amount) - UnitsOrZero(ds[k].amount) else 0
  {
    var n := |ds| - 1;
    if k < n {
      FiguresReplaced(ds[..n], k, d, slot);
      assert ds[k := d][..n] == ds[..n][k := d];
    } else {
      assert ds[k := d][..n] == ds[..n];
    }
  }

  /** The group `d` is added into, once for each of the two ways of adding: with entries, exact
      amount and categories joined. */
  ghost predicate Joins(joined: Drift, seen: Drift, d: Drift) {
    && SlotOf(joined) == SlotOf(seen) == SlotOf(d)
    && joined.entries == seen.entries + d.entries
    && UnitsOrZero(joined.amount) == UnitsOrZero(seen.amount) + UnitsOrZero(d.amount)
    && (forall name :: name in joined.categories <==> name in seen.categories || name in d.categories)
  }

  lemma JoinKeeps(groups: seq<Drift>, all: seq<Drift>, k: nat, joined: Drift, d: Drift)
    requires Summarizes(groups, all) && k < |groups| && Joins(joined, groups[k], d)
    ensures Summarizes(groups[k := joined], all + [d])
  {
    var (now, more) := (groups[k := joined], all + [d]);
    hide EntriesIn, UnitsIn, UnitsOrZero;
    forall slot ensures EntriesIn(now, slot) == EntriesIn(more, slot) && UnitsIn(now, slot) == UnitsIn(more, slot) {
      FiguresReplaced(groups, k, joined, slot);
      EntriesAppend(all, d, slot);
    }
    forall slot ensures Present(now, slot) <==> Present(more, slot) { PresentJoined(groups, all, k, joined, d, slot); }
    forall slot, name ensures NamedIn(now, slot, name) <==> NamedIn(more, slot, name) {
      NamedJoined(groups, all, k, joined, d, slot, name);
    }
  }

  lemma PresentJoined(groups: seq<Drift>, all: seq<Drift>, k: nat, joined: Drift, d: Drift, slot: Slot)
    requires k < |groups| && SlotOf(joined) == SlotOf(groups[k]) == SlotOf(d)
    requires Present(groups, slot) <==> Present(all, slot)
    ensures Present(groups[k := joined], slot) <==> Present(all + [d], slot)
  {
    var (now, more) := (groups[k := joined], all + [d]);
    assert forall i :: 0 <= i < |now| ==> SlotOf(now[i]) == SlotOf(groups[i]);
    assert more[|all|] == d && now[k] == joined;
    forall i | 0 <= i < |all| ensures more[i] == all[i] {}
  }

  lemma NamedJoined(groups: seq<Drift>, all: seq<Drift>, k: nat, joined: Drift, d: Drift, slot: Slot, name: string)
    requires k < |groups| && Joins(joined, groups[k], d) && OneEach(groups)
    requires NamedIn(groups, slot, name) <==> NamedIn(all, slot, name)
    ensures NamedIn(groups[k := joined], slot, name) <==> NamedIn(all + [d], slot, name)
  {
    hide UnitsOrZero;
    var (now, more) := (groups[k := joined], all + [d]);
    assert more[|all|] == d && now[k] == joined;
    forall i | 0 <= i < |all| ensures more[i] == all[i] {}
    forall i | 0 <= i < |groups| && i != k ensures now[i] == groups[i] {}
  }

  lemma PresentAdded(groups: seq<Drift>, all: seq<Drift>, added: Drift, d: Drift, slot: Slot)
    requires (Present(groups, slot) <==> Present(all, slot)) && SlotOf(added) == SlotOf(d)
    ensures Present(groups + [added], slot) <==> Present(all + [d], slot)
  {
    var (now, more) := (groups + [added], all + [d]);
    assert more[|all|] == d && now[|groups|] == added;
    forall i | 0 <= i < |all| ensures more[i] == all[i] {}
    forall i | 0 <= i < |groups| ensures now[i] == groups[i] {}
  }

  lemma NamedAdded(groups: seq<Drift>, all: seq<Drift>, added: Drift, d: Drift, slot: Slot, name: string)
    requires (NamedIn(groups, slot, name) <==> NamedIn(all, slot, name)) && SlotOf(added) == SlotOf(d)
    requires name in added.categories <==> name in d.categories
    ensures NamedIn(groups + [added], slot, name) <==> NamedIn(all + [d], slot, name)
  {
    var (now, more) := (groups + [added], all + [d]);
    assert more[|all|] == d && now[|groups|] == added;
    forall i | 0 <= i < |all| ensures more[i] == all[i] {}
    forall i | 0 <= i < |groups| ensures now[i] == groups[i] {}
  }

  lemma AddKeeps(groups: seq<Drift>, all: seq<Drift>, added: Drift, d: Drift)
    requires Summarizes(groups, all) && !Present(groups, SlotOf(d)) && SlotOf(added) == SlotOf(d)
    requires added.entries == d.entries && UnitsOrZero(added.amount) == UnitsOrZero(d.amount)
    requires forall name :: name in added.categories <==> name in d.categories
    ensures Summarizes(groups + [added], all + [d])
  {
    hide UnitsOrZero, EntriesIn, UnitsIn, NamedIn;
    var (now, more) := (groups + [added], all + [d]);
    forall slot ensures EntriesIn(now, slot) == EntriesIn(more, slot) && UnitsIn(now, slot) == UnitsIn(more, slot) {
      EntriesAppend(groups, added, slot);
      EntriesAppend(all, d, slot);
    }
    forall slot ensures Present(now, slot) <==> Present(more, slot) { PresentAdded(groups, all, added, d, slot); }
    forall slot, name ensures NamedIn(now, slot, name) <==> NamedIn(more, slot, name) {
      NamedAdded(groups, all, added, d, slot, name);
    }
  }

  // ---------------------------------------------------------------------------------------
  // Grouping and merging.
  // ---------------------------------------------------------------------------------------

  /** The map's keys, and where in insertion order each one's group stands. */
  ghost predicate Indexed(index: map<string, nat>, groups: seq<Drift>) {
    && (forall i :: 0 <= i < |groups| ==> SlotText(SlotOf(groups[i])) in index && index[SlotText(SlotOf(groups[i]))] == i)
    && (forall text :: text in index ==> index[text] < |groups| && SlotText(SlotOf(groups[index[text]])) == text)
  }

  lemma IndexedSlot(index: map<string, nat>, groups: seq<Drift>, slot: Slot)
    requires Indexed(index, groups)
    ensures SlotText(slot) in index <==> Present(groups, slot)
    ensures SlotText(slot) in index ==> SlotOf(groups[index[SlotText(slot)]]) == slot
  {
    hide SlotText;
    if SlotText(slot) in index { SlotTextUnique(SlotOf(groups[index[SlotText(slot)]]), slot); }
  }

  lemma IndexedReplaced(index: map<string, nat>, groups: seq<Drift>, k: nat, joined: Drift)
    requires Indexed(index, groups) && k < |groups| && SlotOf(joined) == SlotOf(groups[k])
    ensures Indexed(index, groups[k := joined])
  {
    hide SlotText;
  }

  lemma IndexedAdded(index: map<string, nat>, groups: seq<Drift>, added: Drift)
    requires Indexed(index, groups) && SlotText(SlotOf(added)) !in index
    ensures Indexed(index[SlotText(SlotOf(added)) := |groups|], groups + [added])
  {
    hide SlotText;
  }

  /** `map.set`: a key that is there keeps its place, a new one goes last. */
  function PutAt(index: map<string, nat>, groups: seq<Drift>, next: Drift): (map<string, nat>, seq<Drift>) {
    var text := SlotText(SlotOf(next));
    if text in index && index[text] < |groups| then (index, groups[index[text] := next])
    else (index[text := |groups|], groups + [next])
  }

  function SeenAt(index: map<string, nat>, groups: seq<Drift>, slot: Slot): Option<Drift> {
    var text := SlotText(slot);
    if text in index && index[text] < |groups| then Some(groups[index[text]]) else None
  }

  /** Putting the joined group, or a first one, for the slot of `d` takes `d` into the summary. */
  lemma PutKeeps(index: map<string, nat>, groups: seq<Drift>, all: seq<Drift>, next: Drift, d: Drift)
    requires Summarizes(groups, all) && Indexed(index, groups) && SlotOf(next) == SlotOf(d)
    requires match SeenAt(index, groups, SlotOf(d))
             case Some(seen) => SlotOf(seen) == SlotOf(d) ==> Joins(next, seen, d)
             case None => next.entries == d.entries && UnitsOrZero(next.amount) == UnitsOrZero(d.amount)
                          && forall name :: name in next.categories <==> name in d.categories
    ensures var (index2, groups2) := PutAt(index, groups, next);
      Summarizes(groups2, all + [d]) && Indexed(index2, groups2)
  {
    hide Summarizes, UnitsOrZero, SlotText, Joins;
    IndexedSlot(index, groups, SlotOf(d));
    var text := SlotText(SlotOf(d));
    if text in index {
      JoinKeeps(groups, all, index[text], next, d);
      IndexedReplaced(index, groups, index[text], next);
    } else {
      AddKeeps(groups, all, next, d);
      IndexedAdded(index, groups, next);
    }
  }

  /** What every group in the list stays, if the one put is. */
  lemma PutStays(index: map<string, nat>, groups: seq<Drift>, next: Drift)
    ensures MoneyUnits(next.amount).Some? && ReadableAmounts(groups) ==> ReadableAmounts(PutAt(index, groups, next).1)
    ensures Written(next) && AllWritten(groups) ==> AllWritten(PutAt(index, groups, next).1)
  {
    hide MoneyUnits, SlotText, Written;
  }

  /** A group the way a plan writes one: no category twice, the amount in its one text. */
  predicate Written(d: Drift) {
    NoRepeats(d.categories) && d.amount == MoneyFromUnits(UnitsOrZero(d.amount))
  }

  predicate AllWritten(ds: seq<Drift>) {
    forall i :: 0 <= i < |ds| ==> Written(ds[i])
  }

  /** Adding amounts is exact and in the one text, or throws because one cannot be read. */
  lemma AmountsJoin(left: string, right: string)
    ensures AddDecimalText(left, right).Some? <==> MoneyUnits(left).Some? && MoneyUnits(right).Some?
    ensures AddDecimalText(left, right).Some? ==>
      var sum := AddDecimalText(left, right).value;
      && UnitsOrZero(sum) == UnitsOrZero(left) + UnitsOrZero(right) && MoneyUnits(sum).Some?
      && sum == MoneyFromUnits(UnitsOrZero(sum))
  {
    hide MoneyUnits, FromUnits, MoneyFromUnits;
    if MoneyUnits(left).Some? && MoneyUnits(right).Some? { AddIsExact(left, right); }
  }

  lemma EachOf(ds: seq<Drift>, i: nat)
    requires i < |ds|
    ensures ReadableAmounts(ds) ==> MoneyUnits(ds[i].amount).Some?
    ensures AllWritten(ds) ==> Written(ds[i])
  {
  }

  lemma SeenReadable(index: map<string, nat>, groups: seq<Drift>, slot: Slot)
    requires SeenAt(index, groups, slot).Some? && ReadableAmounts(groups)
    ensures MoneyUnits(SeenAt(index, groups, slot).value.amount).Some?
  {
  }

  lemma NothingYet()
    ensures Summarizes([], []) && Indexed(map[], []) && ReadableAmounts([]) && AllWritten([])
  {
  }

  function Flat<T>(parts: seq<seq<T>>): seq<T> {
    if parts == [] then [] else Flat(parts[..|parts| - 1]) + parts[|parts| - 1]
  }

  lemma JoinedSum(next: Drift, seen: Drift, d: Drift)
    requires SlotOf(seen) == SlotOf(d) && AddDecimalText(seen.amount, d.amount) == Some(next.amount)
    requires next == seen.(entries := seen.entries + d.entries, amount := next.amount,
                           categories := Distinct(seen.categories + d.categories))
    ensures Joins(next, seen, d) && Written(next) && MoneyUnits(next.amount).Some?
  {
    hide AddDecimalText, UnitsOrZero, MoneyUnits, MoneyFromUnits, Distinct;
    AmountsJoin(seen.amount, d.amount);
  }

  /** Drift from every part as one list; it throws only where an amount cannot be read. */
  method MergedDrift(results: seq<seq<Drift>>) returns (merged: Option<seq<Drift>>)
    ensures ReadableAmounts(Flat(results)) ==> merged.Some?
    ensures merged.Some? ==> Summarizes(merged.value, Flat(results))
    ensures merged.Some? && AllWritten(Flat(results)) ==> AllWritten(merged.value)
  {
    hide SlotText, AddDecimalText, UnitsOrZero, Summarizes, Indexed, MoneyUnits, PutAt, Written, NoRepeats,
         ReadableAmounts, AllWritten, SeenAt, Flat, Present, Joins, Distinct;
    var all := Flat(results);
    var groups: seq<Drift> := [];
    var index: map<string, nat> := map[];
    NothingYet();
    for i := 0 to |all|
      invariant Summarizes(groups, all[..i]) && Indexed(index, groups)
      invariant ReadableAmounts(all) ==> ReadableAmounts(groups)
      invariant AllWritten(all) ==> AllWritten(groups)
    {
      var d := all[i];
      assert all[..i + 1] == all[..i] + [d];
      EachOf(all, i);
      var next := d;
      var seen := SeenAt(index, groups, SlotOf(d));
      if seen.Some? {
        var amount := AddDecimalText(seen.value.amount, d.amount);
        if ReadableAmounts(all) { SeenReadable(index, groups, SlotOf(d)); }
        AmountsJoin(seen.value.amount, d.amount);
        if amount.None? { return None; }
        next := seen.value.(entries := seen.value.entries + d.entries, amount := amount.value,
                            categories := Distinct(seen.value.categories + d.categories));
        SeenSlot(index, groups, SlotOf(d));
        JoinedSum(next, seen.value, d);
      }
      PutKeeps(index, groups, all[..i], next, d);
      PutStays(index, groups, next);
      var put := PutAt(index, groups, next);
      index, groups := put.0, put.1;
    }
    assert all[..|all|] == all;
    merged := Some(groups);
  }

  lemma SeenSlot(index: map<string, nat>, groups: seq<Drift>, slot: Slot)
    requires Indexed(index, groups) && SeenAt(index, groups, slot).Some?
    ensures SlotOf(SeenAt(index, groups, slot).value) == slot
  {
    IndexedSlot(index, groups, slot);
  }

  lemma WrittenSum(d: Drift)
    requires NoRepeats(d.categories) && d.amount == MoneyFromUnits(UnitsOrZero(d.amount))
    ensures Written(d)
  {
  }

  /** An entry that posts to another side here, with the names of its categories. */
  datatype Entry = Entry(slot: Slot, amount: string, names: seq<string>)

  function AsDrift(e: Entry): (d: Drift)
    ensures SlotOf(d) == e.slot && d.entries == 1 && d.amount == e.amount && d.categories == e.names
  {
    Drift(e.slot.currency, e.slot.direction, e.slot.there, e.slot.here, 1, e.amount, e.names)
  }

  function AsDrifts(entries: seq<Entry>): seq<Drift> {
    seq(|entries|, i requires 0 <= i < |entries| => AsDrift(entries[i]))
  }

  /** Names pushed one by one, each only if it is not there yet. */
  method PushNames(names: seq<string>, more: seq<string>) returns (r: seq<string>)
    requires NoRepeats(names)
    ensures NoRepeats(r) && names <= r
    ensures forall n :: n in r <==> n in names || n in more
  {
    r := names;
    for i := 0 to |more|
      invariant NoRepeats(r) && names <= r
      invariant forall n :: n in r <==> n in names || n in more[..i]
    {
      if more[i] !in r { r := r + [more[i]]; }
    }
    assert more[..|more|] == more;
  }

  /** A part's own drift, grouped as the plan is made. */
  method GroupDrift(entries: seq<Entry>) returns (grouped: Option<seq<Drift>>)
    ensures ReadableAmounts(AsDrifts(entries)) ==> grouped.Some?
    ensures grouped.Some? ==> Summarizes(grouped.value, AsDrifts(entries)) && AllWritten(grouped.value)
  {
    hide SlotText, AddDecimalText, UnitsOrZero, Summarizes, Indexed, MoneyUnits, PutAt, Written, MoneyFromUnits;
    var groups: seq<Drift> := [];
    var index: map<string, nat> := map[];
    ghost var all := AsDrifts(entries);
    NothingYet();
    ZeroUnitsOf();
    for i := 0 to |entries|
      invariant Summarizes(groups, all[..i]) && Indexed(index, groups)
      invariant AllWritten(groups) && ReadableAmounts(groups)
    {
      var (e, d) := (entries[i], AsDrift(entries[i]));
      assert SlotOf(d) == e.slot && all[..i + 1] == all[..i] + [d];
      var seen := SeenAt(index, groups, e.slot);
      var group := if seen.Some? then seen.value else d.(entries := 0, amount := "0", categories := []);
      if seen.Some? { SeenSlot(index, groups, e.slot); }
      assert NoRepeats(group.categories) && SlotOf(group) == e.slot by { WrittenNames(index, groups, e.slot); }
      var amount := AddDecimalText(group.amount, e.amount);
      AmountsJoin(group.amount, e.amount);
      if amount.None? {
        assert all[i].amount == e.amount;
        return None;
      }
      var names := PushNames(group.categories, e.names);
      var next := group.(entries := group.entries + 1, amount := amount.value, categories := names);
      WrittenSum(next);
      PutKeeps(index, groups, all[..i], next, d);
      PutStays(index, groups, next);
      var put := PutAt(index, groups, next);
      index, groups := put.0, put.1;
    }
    assert all[..|entries|] == all;
    grouped := Some(groups);
  }

  lemma WrittenNames(index: map<string, nat>, groups: seq<Drift>, slot: Slot)
    requires AllWritten(groups)
    ensures SeenAt(index, groups, slot).Some? ==> NoRepeats(SeenAt(index, groups, slot).value.categories)
  {
  }

  lemma ZeroUnitsOf()
    ensures UnitsOrZero("0") == 0 && MoneyUnits("0").Some?
  {
    ZeroReads();
    hide MoneyUnits;
  }

  // ---------------------------------------------------------------------------------------
  // However the entries were cut into parts.
  // ---------------------------------------------------------------------------------------

  lemma {:induction false} FiguresConcat(a: seq<Drift>, b: seq<Drift>, slot: Slot)
    ensures EntriesIn(a + b, slot) == EntriesIn(a, slot) + EntriesIn(b, slot)
    ensures UnitsIn(a + b, slot) == UnitsIn(a, slot) + UnitsIn(b, slot)
  {
    hide UnitsOrZero;
    if b == [] {
      assert a + b == a;
    } else {
      FiguresConcat(a, b[..|b| - 1], slot);
      assert (a + b)[..|a + b| - 1] == a + b[..|b| - 1];
    }
  }

  lemma NamesConcat(a: seq<Drift>, b: seq<Drift>, slot: Slot, name: string)
    ensures Present(a + b, slot) <==> Present(a, slot) || Present(b, slot)
    ensures NamedIn(a + b, slot, name) <==> NamedIn(a, slot, name) || NamedIn(b, slot, name)
  {
    forall i | 0 <= i < |a| ensures (a + b)[i] == a[i] {}
    forall i | 0 <= i < |b| ensures (a + b)[|a| + i] == b[i] {}
  }

  /** Two lists that say the same of every slot. */
  ghost predicate Alike(x: seq<Drift>, y: seq<Drift>) {
    && (forall slot :: Present(x, slot) <==> Present(y, slot))
    && (forall slot :: EntriesIn(x, slot) == EntriesIn(y, slot) && UnitsIn(x, slot) == UnitsIn(y, slot))
    && (forall slot, name :: NamedIn(x, slot, name) <==> NamedIn(y, slot, name))
  }

  lemma {:induction false} GroupedAlike(grouped: seq<seq<Drift>>, parts: seq<seq<Drift>>)
    requires |grouped| == |parts| && forall i :: 0 <= i < |parts| ==> Alike(grouped[i], parts[i])
    ensures Alike(Flat(grouped), Flat(parts))
  {
    hide EntriesIn, UnitsIn, Present, NamedIn;
    if parts != [] {
      var n := |parts| - 1;
      GroupedAlike(grouped[..n], parts[..n]);
      var (a, b, c, d) := (Flat(grouped[..n]), grouped[n], Flat(parts[..n]), parts[n]);
      assert Alike(a, c) && Alike(b, d);
      forall slot ensures EntriesIn(a + b, slot) == EntriesIn(c + d, slot) && UnitsIn(a + b, slot) == UnitsIn(c + d, slot) {
        FiguresConcat(a, b, slot);
        FiguresConcat(c, d, slot);
      }
      forall slot, name ensures NamedIn(a + b, slot, name) <==> NamedIn(c + d, slot, name) {
        NamesConcat(a, b, slot, name);
        NamesConcat(c, d, slot, name);
      }
      forall slot ensures Present(a + b, slot) <==> Present(c + d, slot) {
        NamesConcat(a, b, slot, "");
        NamesConcat(c, d, slot, "");
      }
    }
  }

  /** Grouping each part and merging the groups summarizes the entries of all of them. */
  lemma MergingSummarizes(merged: seq<Drift>, grouped: seq<seq<Drift>>, parts: seq<seq<Drift>>)
    requires |grouped| == |parts| && forall i :: 0 <= i < |parts| ==> Summarizes(grouped[i], parts[i])
    requires Summarizes(merged, Flat(grouped))
    ensures Summarizes(merged, Flat(parts))
  {
    forall i | 0 <= i < |parts| ensures Alike(grouped[i], parts[i]) {}
    GroupedAlike(grouped, parts);
  }

  /** A list with one group per slot: the group is what the list says of the slot. */
  lemma {:induction false} OneGroup(groups: seq<Drift>, k: nat)
    requires OneEach(groups) && k < |groups|
    ensures EntriesIn(groups, SlotOf(groups[k])) == groups[k].entries
    ensures UnitsIn(groups, SlotOf(groups[k])) == UnitsOrZero(groups[k].amount)
    ensures forall name :: NamedIn(groups, SlotOf(groups[k]), name) <==> name in groups[k].categories
  {
    hide UnitsOrZero;
    var n := |groups| - 1;
    if k < n { OneGroup(groups[..n], k); } else { NothingIn(groups[..n], SlotOf(groups[k])); }
    forall name ensures NamedIn(groups, SlotOf(groups[k]), name) <==> name in groups[k].categories {}
  }

  lemma {:induction false} NothingIn(groups: seq<Drift>, slot: Slot)
    requires !Present(groups, slot)
    ensures EntriesIn(groups, slot) == 0 && UnitsIn(groups, slot) == 0
  {
    hide UnitsOrZero;
    if groups != [] {
      var n := |groups| - 1;
      assert SlotOf(groups[n]) != slot;
      forall i | 0 <= i < n ensures SlotOf(groups[..n][i]) != slot {}
      NothingIn(groups[..n], slot);
    }
  }

  ghost predicate SameGroup(x: Drift, y: Drift) {
    && SlotOf(x) == SlotOf(y) && x.entries == y.entries && x.amount == y.amount
    && (forall name :: name in x.categories <==> name in y.categories)
  }

  /** The same entries, cut into parts in any two ways, come to the same groups: the same slots, and
      in each the same count, the same amount in the same words, and the same categories. */
  lemma CutsAgree(one: seq<Drift>, cut: seq<seq<Drift>>, other: seq<Drift>, recut: seq<seq<Drift>>, k: nat)
    requires Summarizes(one, Flat(cut)) && Summarizes(other, Flat(recut)) && Flat(cut) == Flat(recut)
    requires AllWritten(one) && AllWritten(other) && k < |one|
    ensures |one| == |other|
    ensures exists j :: 0 <= j < |other| && SameGroup(other[j], one[k])
  {
    hide UnitsOrZero, EntriesIn, UnitsIn, MoneyFromUnits, NamedIn, Flat;
    var slot := SlotOf(one[k]);
    assert Present(one, slot);
    var j :| 0 <= j < |other| && SlotOf(other[j]) == slot;
    OneGroup(one, k);
    OneGroup(other, j);
    SlotCount(one, other);
    SlotCount(other, one);
  }

  function Slots(ds: seq<Drift>): set<Slot> {
    set d | d in ds :: SlotOf(d)
  }

  lemma {:induction false} SlotsCounted(ds: seq<Drift>)
    requires OneEach(ds)
    ensures |Slots(ds)| == |ds|
  {
    if ds != [] {
      var n := |ds| - 1;
      SlotsCounted(ds[..n]);
      assert ds == ds[..n] + [ds[n]];
      assert Slots(ds) == Slots(ds[..n]) + {SlotOf(ds[n])};
    }
  }

  lemma SlotCount(one: seq<Drift>, other: seq<Drift>)
    requires OneEach(one) && OneEach(other) && forall slot :: Present(one, slot) ==> Present(other, slot)
    ensures |one| <= |other|
  {
    SlotsCounted(one);
    SlotsCounted(other);
    forall slot | slot in Slots(one) ensures slot in Slots(other) { assert Present(one, slot); }
    Within(Slots(one), Slots(other));
  }

  lemma Within(a: set<Slot>, b: set<Slot>)
    requires a <= b
    ensures |a| <= |b|
  {
    assert b == a + (b - a);
  }

  // ---------------------------------------------------------------------------------------
  // Records, each once.
  // ---------------------------------------------------------------------------------------

  datatype Action = Create | Use | Skip | LeaveStaged | Drop | Refused | Undecided

  /** A planned record, its other columns left aside. */
  datatype Record = Record(kind: string, key: string, action: Action)

  const NUL: char := 0 as char

  function RecordId(kind: string, key: string): string {
    kind + [NUL] + key
  }

  lemma BeforeSeparator(k: string, x: string, i: nat)
    requires NUL !in k && i < |RecordId(k, x)|
    ensures RecordId(k, x)[|k|] == NUL && (i < |k| ==> RecordId(k, x)[i] != NUL)
  {
    if i < |k| { assert RecordId(k, x)[i] == k[i]; }
  }

  /** No kind holds the separator, so whatever the key holds, one id names one record. */
  lemma RecordIdUnique(k: string, x: string, l: string, y: string)
    requires NUL !in k && NUL !in l
    ensures RecordId(k, x) == RecordId(l, y) <==> k == l && x == y
  {
    if RecordId(k, x) == RecordId(l, y) {
      var s := RecordId(k, x);
      BeforeSeparator(k, x, |l|);
      BeforeSeparator(l, y, |k|);
      assert k == s[..|k|] && l == s[..|l|] && x == s[|k| + 1..] && y == s[|l| + 1..];
    }
  }

  function IdOf(r: Record): string {
    RecordId(r.kind, r.key)
  }

  predicate Created(records: seq<Record>, id: string) {
    exists i :: 0 <= i < |records| && IdOf(records[i]) == id && records[i].action.Create?
  }

  predicate Listed(records: seq<Record>, id: string) {
    exists i :: 0 <= i < |records| && IdOf(records[i]) == id
  }

  /** Every record of any plan once, from some plan, and as created exactly when a plan created it. */
  ghost predicate Outcome(out: map<string, Record>, all: seq<Record>) {
    && (forall id :: id in out <==> Listed(all, id))
    && (forall id :: id in out ==> out[id] in all && IdOf(out[id]) == id)
    && (forall id :: id in out ==> (out[id].action.Create? <==> Created(all, id)))
  }

  lemma OutcomeStep(out: map<string, Record>, all: seq<Record>, r: Record)
    requires Outcome(out, all)
    ensures Outcome(if IdOf(r) !in out || (!out[IdOf(r)].action.Create? && r.action.Create?) then out[IdOf(r) := r] else out,
                    all + [r])
  {
    var more := all + [r];
    assert more[|all|] == r;
    forall i | 0 <= i < |all| ensures more[i] == all[i] {}
    forall id ensures Listed(more, id) <==> Listed(all, id) || id == IdOf(r) {}
    forall id ensures Created(more, id) <==> Created(all, id) || (id == IdOf(r) && r.action.Create?) {}
    forall id | id in out ensures out[id] in more { assert out[id] in all; }
  }

  function Ids(records: seq<Record>): seq<string> {
    seq(|records|, i requires 0 <= i < |records| => IdOf(records[i]))
  }

  lemma IdsNext(records: seq<Record>, r: Record)
    ensures Distinct(Ids(records + [r])) ==
      if IdOf(r) in Distinct(Ids(records)) then Distinct(Ids(records)) else Distinct(Ids(records)) + [IdOf(r)]
  {
    hide RecordId;
    assert Ids(records + [r]) == Ids(records) + [IdOf(r)];
    assert (Ids(records) + [IdOf(r)])[..|records|] == Ids(records);
  }

  ghost predicate Across(out: map<string, Record>, order: seq<string>, all: seq<Record>) {
    Outcome(out, all) && order == Distinct(Ids(all)) && forall id :: id in order <==> id in out
  }

  lemma AcrossStep(out: map<string, Record>, order: seq<string>, all: seq<Record>, r: Record)
    requires Across(out, order, all)
    ensures var better := IdOf(r) !in out || (!out[IdOf(r)].action.Create? && r.action.Create?);
      Across(if better then out[IdOf(r) := r] else out, if IdOf(r) !in out then order + [IdOf(r)] else order, all + [r])
  {
    OutcomeStep(out, all, r);
    IdsNext(all, r);
    hide Outcome, RecordId, Distinct, Ids;
  }

  lemma NothingAcross()
    ensures Across(map[], [], [])
  {
    assert Ids([]) == [];
  }

  /** Per record, the furthest any part got, in the order in which the plans first name them. */
  method RecordsAcross(plans: seq<seq<Record>>) returns (out: map<string, Record>, order: seq<string>)
    ensures Outcome(out, Flat(plans))
    ensures order == Distinct(Ids(Flat(plans))) && forall id :: id in order <==> id in out
  {
    hide Outcome, RecordId, Distinct, Ids, Across;
    NothingAcross();
    out, order := map[], [];
    for p := 0 to |plans|
      invariant Across(out, order, Flat(plans[..p]))
    {
      assert plans[..p + 1][..p] == plans[..p];
      var plan := plans[p];
      assert Flat(plans[..p]) + plan[..0] == Flat(plans[..p]);
      for i := 0 to |plan|
        invariant Across(out, order, Flat(plans[..p]) + plan[..i])
      {
        var (r, id) := (plan[i], IdOf(plan[i]));
        AcrossStep(out, order, Flat(plans[..p]) + plan[..i], r);
        assert Flat(plans[..p]) + plan[..i + 1] == Flat(plans[..p]) + plan[..i] + [r];
        if id !in out || (!out[id].action.Create? && r.action.Create?) {
          if id !in out { order := order + [id]; }
          out := out[id := r];
        }
      }
      assert plan[..|plan|] == plan;
    }
    assert plans[..|plans|] == plans;
    AcrossSays(out, order, Flat(plans));
  }

  lemma AcrossSays(out: map<string, Record>, order: seq<string>, all: seq<Record>)
    requires Across(out, order, all)
    ensures Outcome(out, all) && order == Distinct(Ids(all)) && forall id :: id in order <==> id in out
  {
  }
}
