/** The transaction form (src/client/forms.tsx): templates laid over what the form held, the split
    editor, and what is sent. Every value remembers where it came from. */
module TransactionForm {
  import opened Options
  import opened Money

  const MAX_TRANSACTION_LEGS: nat := 50

  datatype Field = Type | Date | Payee | Description | Notes | Amount | DestinationAmount
                 | FromAccountId | ToAccountId | CategoryId | CategoryName

  /** What the form opened with, what was typed or chosen, what a template supplied, and what the
      form filled in of its own accord: a blank, a default, the name of a chosen category. */
  datatype Origin = Opened | Typed | FromTemplate(id: string) | Supplied

  datatype Value = Value(text: string, origin: Origin)

  const BLANK := Value("", Supplied)

  type Fields = map<Field, Value>

  datatype Leg = Leg(id: string, categoryId: Value, categoryName: Value, amount: Value, note: Value)

  datatype Account = Account(id: string, currency: string, archived: bool, frozen: bool)

  /** The lists the form reads when a handler runs. */
  datatype Lists = Lists(accounts: seq<Account>, categories: map<string, string>, today: string)

  datatype TemplateLeg = TemplateLeg(categoryId: Option<string>, categoryName: Option<string>,
                                     amount: Option<string>, note: Option<string>)

  /** Only the fields a template carries are in `fields`; the empty id is no template at all. */
  datatype Template = Template(id: string, fields: map<Field, string>, legs: seq<TemplateLeg>)

  const NO_TEMPLATE := Template("", map[], [])

  /** What a template may store: no blank field, two legs or more, and never legs beside a category
      or on a transfer. */
  predicate Storable(t: Template) {
    && (forall f :: f in t.fields ==> t.fields[f] != "")
    && (t.legs == [] || 2 <= |t.legs| <= MAX_TRANSACTION_LEGS)
    && (t.legs != [] ==> CategoryId !in t.fields && CategoryName !in t.fields)
    && (t.legs != [] && Type in t.fields ==> t.fields[Type] != "transfer")
    && (t.id == "" ==> t == NO_TEMPLATE)
  }

  predicate HasCategory(t: Template) {
    t.legs != [] || CategoryId in t.fields || CategoryName in t.fields
  }

  /** What the form is opened for, and the values it opens with. */
  datatype Setup = Setup(base: map<Field, string>, createType: string, initialAccountId: Option<string>,
                         initialCategoryId: string, initialPayee: string, editing: bool)

  datatype State = State(setup: Setup, fields: Fields, legs: seq<Leg>, selected: string,
                         applied: set<Field>, appliedLegs: bool)

  predicate Whole(s: State) {
    && (forall f: Field :: f in s.fields)
    && (forall f: Field :: f in s.setup.base)
  }

  // ---------------------------------------------------------------------------------------
  // Defaults and effects.
  // ---------------------------------------------------------------------------------------

  function Writable(accounts: seq<Account>): seq<Account> {
    if accounts == [] then []
    else (if !accounts[0].archived && !accounts[0].frozen then [accounts[0]] else []) + Writable(accounts[1..])
  }

  function FirstWritable(lists: Lists): string {
    if Writable(lists.accounts) == [] then "" else Writable(lists.accounts)[0].id
  }

  function OtherThan(accounts: seq<Account>, id: string): string {
    if accounts == [] then "" else if accounts[0].id != id then accounts[0].id else OtherThan(accounts[1..], id)
  }

  function DefaultAccount(setup: Setup, lists: Lists, kind: string, side: Field): string {
    var primary := if setup.initialAccountId.Some? then setup.initialAccountId.value else FirstWritable(lists);
    if side == ToAccountId && kind == "transfer" then OtherThan(Writable(lists.accounts), primary) else primary
  }

  /** The effects that follow every render: a blank account is filled, a transfer drops its category. */
  function Settled(s: State, lists: Lists): (n: State)
    requires Whole(s)
    ensures Whole(n) && n.setup == s.setup
  {
    var first := FirstWritable(lists);
    var filled := s.fields[
      FromAccountId := if s.fields[FromAccountId].text == "" && first != "" then Value(first, Supplied) else s.fields[FromAccountId]][
      ToAccountId := if s.fields[ToAccountId].text == "" && first != "" then Value(first, Supplied) else s.fields[ToAccountId]];
    s.(fields := if s.fields[CategoryId].text != "" && s.fields[Type].text == "transfer"
                 then filled[CategoryId := BLANK][CategoryName := BLANK] else filled)
  }

  /** An account money may be put in, other than one already taken. */
  predicate OpenAt(accounts: seq<Account>, i: int, taken: Option<string>) {
    0 <= i < |accounts| && !accounts[i].archived && !accounts[i].frozen && Some(accounts[i].id) != taken
  }

  /** The first such account's id, and blank exactly when there is none. */
  ghost predicate FirstOpen(accounts: seq<Account>, taken: Option<string>, id: string) {
    if exists i :: OpenAt(accounts, i, taken)
    then exists i :: OpenAt(accounts, i, taken) && accounts[i].id == id && forall j :: 0 <= j < i ==> !OpenAt(accounts, j, taken)
    else id == ""
  }

  function FirstAmong(accounts: seq<Account>, taken: Option<string>): string {
    if accounts == [] then "" else if OpenAt(accounts, 0, taken) then accounts[0].id else FirstAmong(accounts[1..], taken)
  }

  lemma {:induction false} FirstAmongIs(accounts: seq<Account>, taken: Option<string>)
    ensures FirstOpen(accounts, taken, FirstAmong(accounts, taken))
  {
    if accounts != [] && !OpenAt(accounts, 0, taken) {
      var rest := accounts[1..];
      FirstAmongIs(rest, taken);
      assert forall i :: OpenAt(rest, i, taken) ==> OpenAt(accounts, i + 1, taken);
      assert forall i :: OpenAt(accounts, i, taken) ==> i > 0 && OpenAt(rest, i - 1, taken);
      if i :| OpenAt(rest, i, taken) {
        var first :| OpenAt(rest, first, taken) && rest[first].id == FirstAmong(rest, taken)
          && forall j :: 0 <= j < first ==> !OpenAt(rest, j, taken);
        assert OpenAt(accounts, first + 1, taken) && accounts[first + 1].id == FirstAmong(accounts, taken);
      }
    }
  }

  lemma {:induction false} FirstWritableIs(accounts: seq<Account>)
    ensures FirstAmong(accounts, None) == if Writable(accounts) == [] then "" else Writable(accounts)[0].id
  {
    if accounts != [] { FirstWritableIs(accounts[1..]); }
  }

  lemma {:induction false} OtherThanIs(accounts: seq<Account>, taken: string)
    ensures FirstAmong(accounts, Some(taken)) == OtherThan(Writable(accounts), taken)
  {
    if accounts != [] {
      OtherThanIs(accounts[1..], taken);
      if OpenAt(accounts, 0, None) {
        assert Writable(accounts)[0] == accounts[0] && Writable(accounts)[1..] == Writable(accounts[1..]);
      } else {
        assert Writable(accounts) == Writable(accounts[1..]);
      }
    }
  }

  /** The account a form starts on: the one it was opened for, or else the first open one. */
  ghost predicate Primary(setup: Setup, lists: Lists, id: string) {
    if setup.initialAccountId.Some? then id == setup.initialAccountId.value else FirstOpen(lists.accounts, None, id)
  }

  /** Both sides start on it, but the receiving side of a transfer on the first open one other than it. */
  ghost predicate UsualSide(setup: Setup, lists: Lists, kind: string, side: Field, id: string) {
    if side == ToAccountId && kind == "transfer" then
      exists primary :: Primary(setup, lists, primary) && FirstOpen(lists.accounts, Some(primary), id)
    else Primary(setup, lists, id)
  }

  lemma DefaultAccountIs(setup: Setup, lists: Lists, kind: string, side: Field)
    ensures UsualSide(setup, lists, kind, side, DefaultAccount(setup, lists, kind, side))
  {
    hide FirstOpen, OtherThan, Writable;
    var primary := DefaultAccount(setup, lists, kind, FromAccountId);
    FirstAmongIs(lists.accounts, None);
    FirstAmongIs(lists.accounts, Some(primary));
    FirstWritableIs(lists.accounts);
    OtherThanIs(lists.accounts, primary);
    assert Primary(setup, lists, primary);
  }

  /** What the effects do: a blank side takes the first open account, a transfer loses a chosen category,
      and nothing else moves. */
  lemma EffectsFill(s: State, lists: Lists, f: Field)
    requires Whole(s)
    ensures var n := Settled(s, lists);
      && (if IsSide(f) && s.fields[f].text == "" then FirstOpen(lists.accounts, None, n.fields[f].text)
          else if (f.CategoryId? || f.CategoryName?) && s.fields[CategoryId].text != "" && s.fields[Type].text == "transfer"
          then n.fields[f].text == ""
          else n.fields[f] == s.fields[f])
      && n.legs == s.legs && n.selected == s.selected && n.applied == s.applied && n.appliedLegs == s.appliedLegs
  {
    hide FirstOpen;
    FirstAmongIs(lists.accounts, None);
    FirstWritableIs(lists.accounts);
  }

  function Mounted(setup: Setup, legs: seq<Leg>): State
    requires forall f: Field :: f in setup.base
  {
    State(setup, map f: Field | f in setup.base :: Value(setup.base[f], Opened), legs, "", {}, false)
  }

  // ---------------------------------------------------------------------------------------
  // Choosing a template.
  // ---------------------------------------------------------------------------------------

  function Base(s: State, f: Field): Value
    requires Whole(s)
  {
    Value(s.setup.base[f], Opened)
  }

  /** A field the template carries is taken, one the last template set is put back, and any other
      is left alone. */
  function Taken(s: State, t: Template, f: Field): Value
    requires Whole(s)
  {
    if f in t.fields then Value(t.fields[f], FromTemplate(t.id))
    else if f in s.applied then Base(s, f)
    else s.fields[f]
  }

  function Restored(s: State, lists: Lists, kind: string, side: Field): Value
    requires Whole(s)
  {
    if s.setup.base[side] != "" then Base(s, side) else Value(DefaultAccount(s.setup, lists, kind, side), Supplied)
  }

  predicate Offered(lists: Lists, id: string) {
    exists a :: a in lists.accounts && a.id == id && !a.archived
  }

  function TakenAccount(s: State, t: Template, lists: Lists, kind: string, side: Field): Value
    requires Whole(s)
  {
    if side in t.fields then
      if t.fields[side] != "" && Offered(lists, t.fields[side]) then Value(t.fields[side], FromTemplate(t.id))
      else Restored(s, lists, kind, side)
    else if side in s.applied then Restored(s, lists, kind, side)
    else if s.fields[side].text == "" then Value(DefaultAccount(s.setup, lists, kind, side), Supplied)
    else s.fields[side]
  }

  /** A category the picker can show: one the ledger has, on anything but a transfer. */
  function Usable(lists: Lists, kind: string, id: string): Option<string> {
    if id in lists.categories && kind != "transfer" then Some(lists.categories[id]) else None
  }

  function Tagged(text: Option<string>, t: Template): Value {
    if text.Some? then Value(text.value, FromTemplate(t.id)) else BLANK
  }

  function TakenLeg(t: Template, lists: Lists, kind: string, leg: TemplateLeg): Leg {
    var named := leg.categoryId.Some? && leg.categoryId.value != "";
    var category := if named then Usable(lists, kind, leg.categoryId.value) else None;
    Leg("", if category.Some? then Tagged(leg.categoryId, t) else BLANK,
        if category.Some? then Tagged(category, t) else if named then BLANK else Tagged(leg.categoryName, t),
        Tagged(leg.amount, t), Tagged(leg.note, t))
  }

  function TakenLegs(t: Template, lists: Lists, kind: string): seq<Leg> {
    seq(|t.legs|, i requires 0 <= i < |t.legs| => TakenLeg(t, lists, kind, t.legs[i]))
  }

  datatype CategorySide = CategorySide(id: Value, name: Value, legs: seq<Leg>)

  /** The category side is replaced as a whole, put back as a whole, or left as a whole. */
  function TakenCategory(s: State, t: Template, lists: Lists, kind: string): CategorySide
    requires Whole(s)
  {
    if t.legs != [] then
      CategorySide(BLANK, BLANK, TakenLegs(t, lists, kind))
    else if CategoryId in t.fields && t.fields[CategoryId] != "" then
      var name := Usable(lists, kind, t.fields[CategoryId]);
      CategorySide(if name.Some? then Value(t.fields[CategoryId], FromTemplate(t.id)) else BLANK, Tagged(name, t), [])
    else if CategoryName in t.fields && t.fields[CategoryName] != "" then
      CategorySide(BLANK, Value(t.fields[CategoryName], FromTemplate(t.id)), [])
    else if CategoryId in s.applied || CategoryName in s.applied || s.appliedLegs then
      CategorySide(Base(s, CategoryId), Base(s, CategoryName), [])
    else
      CategorySide(s.fields[CategoryId], s.fields[CategoryName], s.legs)
  }

  function Chosen(s: State, t: Template, lists: Lists): (n: State)
    requires Whole(s)
    ensures Whole(n) && n.setup == s.setup
  {
    var kind := Taken(s, t, Type).text;
    var side := TakenCategory(s, t, lists, kind);
    State(s.setup,
          map f: Field | f in s.fields ::
            match f
            case CategoryId => side.id
            case CategoryName => side.name
            case FromAccountId => TakenAccount(s, t, lists, kind, f)
            case ToAccountId => TakenAccount(s, t, lists, kind, f)
            case _ => Taken(s, t, f),
          side.legs, t.id, t.fields.Keys, t.legs != [])
  }

  // ---------------------------------------------------------------------------------------
  // The other handlers.
  // ---------------------------------------------------------------------------------------

  function Reset(s: State, lists: Lists): State
    requires Whole(s)
  {
    var kind := s.setup.createType;
    State(s.setup,
          map f: Field | f in s.fields ::
            match f
            case Type => Value(kind, Supplied)
            case Date => Value(lists.today, Supplied)
            case Payee => Value(s.setup.initialPayee, Supplied)
            case CategoryId => Value(s.setup.initialCategoryId, Supplied)
            case CategoryName =>
              Value(if s.setup.initialCategoryId in lists.categories then lists.categories[s.setup.initialCategoryId] else "", Supplied)
            case FromAccountId => Value(DefaultAccount(s.setup, lists, kind, f), Supplied)
            case ToAccountId => Value(DefaultAccount(s.setup, lists, kind, f), Supplied)
            case _ => BLANK,
          [], "", {}, false)
  }

  function WithType(s: State, next: string, lists: Lists): State
    requires Whole(s)
  {
    var from := Value(DefaultAccount(s.setup, lists, next, FromAccountId), Supplied);
    var to := Value(DefaultAccount(s.setup, lists, next, ToAccountId), Supplied);
    var typed := s.fields[Type := Value(next, Typed)];
    s.(fields := if s.setup.editing then typed
                 else if next == "withdrawal" then typed[FromAccountId := from]
                 else if next == "deposit" then typed[ToAccountId := to]
                 else typed[FromAccountId := from][ToAccountId := to])
  }

  /** An account chosen by hand also drops a received amount that only echoes the sent one. */
  function WithAccount(s: State, side: Field, id: string): State
    requires Whole(s)
  {
    var echoed := && s.fields[DestinationAmount].text != ""
                  && CompareMoney(s.fields[DestinationAmount].text, s.fields[Amount].text) == 0;
    s.(fields := (if echoed then s.fields[DestinationAmount := BLANK] else s.fields)[side := Value(id, Typed)])
  }

  const NEW_LEG := Leg("", BLANK, BLANK, BLANK, BLANK)

  /** The category already chosen becomes the first leg, carrying the whole amount. */
  function SplitStarted(s: State): State
    requires Whole(s)
  {
    s.(fields := s.fields[CategoryId := BLANK][CategoryName := BLANK],
       legs := [Leg("", s.fields[CategoryId], s.fields[CategoryName], s.fields[Amount], BLANK), NEW_LEG])
  }

  function LegRemoved(s: State, i: nat): State
    requires Whole(s) && i < |s.legs|
  {
    var rest := s.legs[..i] + s.legs[i + 1..];
    if |rest| >= 2 then s.(legs := rest)
    else s.(fields := s.fields[CategoryId := if rest == [] then BLANK else rest[0].categoryId]
                              [CategoryName := if rest == [] then BLANK else rest[0].categoryName],
            legs := [])
  }

  datatype LegEdit = LegCategory(id: string, name: string) | LegAmount(text: string) | LegNote(text: string)

  function LegEdited(leg: Leg, edit: LegEdit): Leg {
    match edit
    case LegCategory(id, name) => leg.(categoryId := Value(id, Typed), categoryName := Value(name, Typed))
    case LegAmount(text) => leg.(amount := Value(text, Typed))
    case LegNote(text) => leg.(note := Value(text, Typed))
  }

  datatype Event =
    | Choose(template: Template)
    | Write(field: Field, text: string)
    | PickType(next: string)
    | PickAccount(side: Field, account: string)
    | PickCategory(id: string, name: string)
    | StartSplit
    | AddLeg
    | RemoveLeg(index: nat)
    | EditLeg(at: nat, edit: LegEdit)
    | StartOver

  predicate IsText(f: Field) {
    f.Date? || f.Payee? || f.Description? || f.Notes? || f.Amount? || f.DestinationAmount?
  }

  predicate ShowsCategory(s: State)
    requires Whole(s)
  {
    s.fields[Type].text != "transfer"
  }

  predicate Enabled(s: State, e: Event)
    requires Whole(s)
  {
    match e
    case Choose(t) => Storable(t)
    case Write(f, _) => IsText(f)
    case PickType(_) => true
    case PickAccount(side, _) => side.FromAccountId? || side.ToAccountId?
    case PickCategory(_, _) => ShowsCategory(s) && s.legs == []
    case StartSplit => ShowsCategory(s) && s.legs == []
    case AddLeg => ShowsCategory(s) && 0 < |s.legs| < MAX_TRANSACTION_LEGS
    case RemoveLeg(i) => ShowsCategory(s) && i < |s.legs|
    case EditLeg(i, _) => ShowsCategory(s) && i < |s.legs|
    case StartOver => !s.setup.editing
  }

  function Handle(s: State, e: Event, lists: Lists): (n: State)
    requires Whole(s) && Enabled(s, e)
    ensures Whole(n) && n.setup == s.setup
  {
    match e
    case Choose(t) => Chosen(s, t, lists)
    case Write(f, text) => s.(fields := s.fields[f := Value(text, Typed)])
    case PickType(next) => WithType(s, next, lists)
    case PickAccount(side, id) => WithAccount(s, side, id)
    case PickCategory(id, name) =>
      s.(fields := s.fields[CategoryId := Value(id, Typed)][CategoryName := Value(name, Typed)])
    case StartSplit => SplitStarted(s)
    case AddLeg => s.(legs := s.legs + [NEW_LEG])
    case RemoveLeg(i) => LegRemoved(s, i)
    case EditLeg(i, edit) => s.(legs := s.legs[i := LegEdited(s.legs[i], edit)])
    case StartOver => Reset(s, lists)
  }

  function Apply(s: State, e: Event, lists: Lists): (n: State)
    requires Whole(s) && Enabled(s, e)
    ensures Whole(n) && n.setup == s.setup
  {
    Settled(Handle(s, e, lists), lists)
  }

  // ---------------------------------------------------------------------------------------
  // The two handlers that set many fields, one after the other.
  // ---------------------------------------------------------------------------------------

  /** A leg's category the picker cannot show. */
  predicate LegMissing(t: Template, lists: Lists, kind: string, i: nat) {
    && i < |t.legs| && t.legs[i].categoryId.Some? && t.legs[i].categoryId.value != ""
    && Usable(lists, kind, t.legs[i].categoryId.value).None?
  }

  predicate SingleMissing(t: Template, lists: Lists, kind: string) {
    && t.legs == [] && CategoryId in t.fields && t.fields[CategoryId] != ""
    && Usable(lists, kind, t.fields[CategoryId]).None?
  }

  predicate CategoryMissing(t: Template, lists: Lists, kind: string) {
    (exists i :: 0 <= i < |t.legs| && LegMissing(t, lists, kind, i)) || SingleMissing(t, lists, kind)
  }

  predicate IsSide(f: Field) {
    f.FromAccountId? || f.ToAccountId?
  }

  predicate SideMissing(t: Template, lists: Lists, side: Field) {
    side in t.fields && t.fields[side] != "" && !Offered(lists, t.fields[side])
  }

  predicate AccountMissing(t: Template, lists: Lists) {
    SideMissing(t, lists, FromAccountId) || SideMissing(t, lists, ToAccountId)
  }

  /** What a form holds once the texts, the two sides and the category side have been taken in turn. */
  function TextsTaken(s: State, t: Template): (n: State)
    requires Whole(s)
    ensures Whole(n)
  {
    s.(fields := map f: Field | f in s.fields :: if f.Type? || IsText(f) then Taken(s, t, f) else s.fields[f])
  }

  function SidesTaken(s: State, t: Template, lists: Lists, kind: string): (n: State)
    requires Whole(s)
    ensures Whole(n)
  {
    s.(fields := map f: Field | f in s.fields :: if IsSide(f) then TakenAccount(s, t, lists, kind, f) else s.fields[f])
  }

  function CategoryTaken(s: State, t: Template, lists: Lists, kind: string): (n: State)
    requires Whole(s)
    ensures Whole(n)
  {
    var side := TakenCategory(s, t, lists, kind);
    s.(fields := s.fields[CategoryId := side.id][CategoryName := side.name], legs := side.legs)
  }

  /** Taking a field looks at that field alone. */
  lemma TakenAlone(s: State, n: State, t: Template, f: Field)
    requires Whole(s) && Whole(n) && n.setup == s.setup && n.applied == s.applied && n.fields[f] == s.fields[f]
    ensures Taken(n, t, f) == Taken(s, t, f)
  {
  }

  /** So the order in which a choice takes them leaves what taking each from the form as it was leaves. */
  lemma Assembled(s: State, t: Template, lists: Lists)
    requires Whole(s)
    ensures var texts := TextsTaken(s.(selected := t.id), t);
            var kind := texts.fields[Type].text;
            && kind == Taken(s, t, Type).text
            && Chosen(s, t, lists) ==
                 CategoryTaken(SidesTaken(texts, t, lists, kind), t, lists, kind).(applied := t.fields.Keys, appliedLegs := t.legs != [])
  {
    hide Taken, TakenAccount, TakenCategory, Chosen, CategoryTaken;
    var n := s.(selected := t.id);
    var texts := TextsTaken(n, t);
    var kind := texts.fields[Type].text;
    var sides := SidesTaken(texts, t, lists, kind);
    forall f: Field ensures Taken(n, t, f) == Taken(s, t, f) { TakenAlone(s, n, t, f); }
    forall f: Field | IsSide(f) ensures sides.fields[f] == TakenAccount(s, t, lists, kind, f) {
      SideAlone(s, texts, t, lists, kind, f);
    }
    CategoryAlone(s, sides, t, lists, kind);
    Together(s, sides, t, lists);
  }

  lemma Together(s: State, n: State, t: Template, lists: Lists)
    requires Whole(s) && n.fields.Keys == s.fields.Keys && n.setup == s.setup && n.selected == t.id
    requires forall f: Field :: IsSide(f) ==> n.fields[f] == TakenAccount(s, t, lists, Taken(s, t, Type).text, f)
    requires forall f: Field :: f.Type? || IsText(f) ==> n.fields[f] == Taken(s, t, f)
    requires TakenCategory(n, t, lists, Taken(s, t, Type).text) == TakenCategory(s, t, lists, Taken(s, t, Type).text)
    ensures Chosen(s, t, lists) ==
      CategoryTaken(n, t, lists, Taken(s, t, Type).text).(applied := t.fields.Keys, appliedLegs := t.legs != [])
  {
    hide Taken, TakenAccount, TakenCategory;
    assert CategoryTaken(n, t, lists, Taken(s, t, Type).text).fields == Chosen(s, t, lists).fields;
  }

  lemma SideAlone(s: State, n: State, t: Template, lists: Lists, kind: string, f: Field)
    requires Whole(s) && Whole(n) && n.setup == s.setup && n.applied == s.applied && n.fields[f] == s.fields[f]
    ensures TakenAccount(n, t, lists, kind, f) == TakenAccount(s, t, lists, kind, f)
  {
    hide DefaultAccount, Offered;
  }

  lemma CategoryAlone(s: State, n: State, t: Template, lists: Lists, kind: string)
    requires Whole(s) && Whole(n) && n.setup == s.setup && n.applied == s.applied && n.appliedLegs == s.appliedLegs && n.legs == s.legs
    requires n.fields[CategoryId] == s.fields[CategoryId] && n.fields[CategoryName] == s.fields[CategoryName]
    ensures TakenCategory(n, t, lists, kind) == TakenCategory(s, t, lists, kind)
  {
    hide TakenLegs, Usable;
  }

  class Form {
    const setup: Setup
    var fields: Fields
    var legs: seq<Leg>
    var selected: string
    var applied: set<Field>
    var appliedLegs: bool

    constructor (setup: Setup, legs: seq<Leg>)
      requires forall f: Field :: f in setup.base
      ensures Model() == Mounted(setup, legs) && Whole(Model())
    {
      this.setup, this.legs := setup, legs;
      fields := map f: Field | f in setup.base :: Value(setup.base[f], Opened);
      selected, applied, appliedLegs := "", {}, false;
    }

    function Model(): State
      reads this
    {
      State(setup, fields, legs, selected, applied, appliedLegs)
    }

    /** One field: set from the template, put back if the last template set it, or left. */
    method Take(t: Template, f: Field, ghost before: State)
      requires Whole(Model()) && Whole(before)
      requires before.setup == setup && before.applied == applied && before.fields[f] == fields[f]
      modifies `fields
      ensures fields == old(fields)[f := Taken(before, t, f)]
    {
      if f in t.fields {
        fields := fields[f := Value(t.fields[f], FromTemplate(t.id))];
      } else if f in applied {
        fields := fields[f := Value(setup.base[f], Opened)];
      }
    }

    method TakeTexts(t: Template)
      requires Whole(Model())
      modifies `fields
      ensures Model() == TextsTaken(old(Model()), t)
    {
      hide Taken;
      ghost var before := Model();
      var texts := [Type, Date, Payee, Description, Notes, Amount, DestinationAmount];
      for i := 0 to |texts|
        invariant fields.Keys == before.fields.Keys
        invariant forall f: Field :: fields[f] == if f in texts[..i] then Taken(before, t, f) else before.fields[f]
      {
        assert forall f: Field :: f in texts[..i + 1] <==> f in texts[..i] || f == texts[i];
        assert texts[i] !in texts[..i];
        Take(t, texts[i], before);
      }
      assert texts[..|texts|] == texts;
      assert forall f: Field :: f in texts <==> f.Type? || IsText(f);
      assert fields == TextsTaken(before, t).fields;
    }

    /** An account is taken only if the select can show it; otherwise it is missing. */
    method ResolveAccount(t: Template, lists: Lists, id: string, fallback: Value) returns (value: Value, gone: bool)
      ensures gone <==> id != "" && !Offered(lists, id)
      ensures value == if id != "" && !gone then Value(id, FromTemplate(t.id)) else fallback
    {
      if id == "" { return fallback, false; }
      for i := 0 to |lists.accounts|
        invariant forall j :: 0 <= j < i ==> lists.accounts[j].id != id || lists.accounts[j].archived
      {
        if lists.accounts[i].id == id && !lists.accounts[i].archived { return Value(id, FromTemplate(t.id)), false; }
      }
      return fallback, true;
    }

    method TakeSide(t: Template, lists: Lists, kind: string, side: Field) returns (gone: bool)
      requires Whole(Model())
      modifies `fields
      ensures fields == old(fields)[side := TakenAccount(old(Model()), t, lists, kind, side)]
      ensures gone <==> SideMissing(t, lists, side)
    {
      hide DefaultAccount, Offered;
      gone := false;
      var usual := DefaultAccount(setup, lists, kind, side);
      var restore := if setup.base[side] != "" then Value(setup.base[side], Opened) else Value(usual, Supplied);
      if side in t.fields {
        var value;
        value, gone := ResolveAccount(t, lists, t.fields[side], restore);
        fields := fields[side := value];
      } else if side in applied {
        fields := fields[side := restore];
      } else if fields[side].text == "" {
        fields := fields[side := Value(usual, Supplied)];
      }
    }

    method TakeSides(t: Template, lists: Lists, kind: string) returns (gone: bool)
      requires Whole(Model())
      modifies `fields
      ensures Model() == SidesTaken(old(Model()), t, lists, kind)
      ensures gone <==> AccountMissing(t, lists)
    {
      hide TakenAccount, SideMissing;
      ghost var before := Model();
      var fromMissing := TakeSide(t, lists, kind, FromAccountId);
      SideAlone(before, Model(), t, lists, kind, ToAccountId);
      var toMissing := TakeSide(t, lists, kind, ToAccountId);
      gone := fromMissing || toMissing;
      assert fields == SidesTaken(before, t, lists, kind).fields;
    }

    /** The legs of a split, each with its category cleared and missing if the picker cannot show it. */
    method TakeLegs(t: Template, lists: Lists, kind: string) returns (taken: seq<Leg>, gone: bool)
      ensures taken == TakenLegs(t, lists, kind)
      ensures gone <==> exists i :: 0 <= i < |t.legs| && LegMissing(t, lists, kind, i)
    {
      taken, gone := [], false;
      for i := 0 to |t.legs|
        invariant |taken| == i && forall j :: 0 <= j < i ==> taken[j] == TakenLeg(t, lists, kind, t.legs[j])
        invariant gone <==> exists j :: 0 <= j < i && LegMissing(t, lists, kind, j)
      {
        var leg := t.legs[i];
        var id, name := BLANK, BLANK;
        if leg.categoryId.Some? && leg.categoryId.value != "" {
          var category := Usable(lists, kind, leg.categoryId.value);
          if category.Some? {
            id, name := Value(leg.categoryId.value, FromTemplate(t.id)), Value(category.value, FromTemplate(t.id));
          } else {
            assert LegMissing(t, lists, kind, i);
            gone := true;
          }
        } else if leg.categoryName.Some? {
          name := Value(leg.categoryName.value, FromTemplate(t.id));
        }
        taken := taken + [Leg("", id, name, Tagged(leg.amount, t), Tagged(leg.note, t))];
      }
    }

    /** The category side: a split, a category, a name, what the form opened with, or as it is. */
    method TakeCategory(t: Template, lists: Lists, kind: string) returns (gone: bool)
      requires Whole(Model())
      modifies `fields, `legs
      ensures Model() == CategoryTaken(old(Model()), t, lists, kind)
      ensures gone <==> CategoryMissing(t, lists, kind)
    {
      hide TakenLegs, LegMissing;
      gone := false;
      if t.legs != [] {
        fields := fields[CategoryId := BLANK][CategoryName := BLANK];
        legs, gone := TakeLegs(t, lists, kind);
      } else if CategoryId in t.fields && t.fields[CategoryId] != "" {
        legs := [];
        var category := Usable(lists, kind, t.fields[CategoryId]);
        if category.Some? {
          fields := fields[CategoryId := Value(t.fields[CategoryId], FromTemplate(t.id))];
          fields := fields[CategoryName := Value(category.value, FromTemplate(t.id))];
        } else {
          gone := true;
          fields := fields[CategoryId := BLANK][CategoryName := BLANK];
        }
      } else if CategoryName in t.fields && t.fields[CategoryName] != "" {
        legs := [];
        fields := fields[CategoryId := BLANK][CategoryName := Value(t.fields[CategoryName], FromTemplate(t.id))];
      } else if CategoryId in applied || CategoryName in applied || appliedLegs {
        legs := [];
        fields := fields[CategoryId := Value(setup.base[CategoryId], Opened)][CategoryName := Value(setup.base[CategoryName], Opened)];
      }
    }

    /** The notice names an account or a category exactly when the template has one no longer offered. */
    method ApplyTemplate(t: Template, lists: Lists) returns (accountMissing: bool, categoryMissing: bool)
      requires Whole(Model())
      modifies this
      ensures Model() == Chosen(old(Model()), t, lists)
      ensures accountMissing <==> AccountMissing(t, lists)
      ensures categoryMissing <==> CategoryMissing(t, lists, Taken(old(Model()), t, Type).text)
    {
      hide TextsTaken, SidesTaken, CategoryTaken, Taken, CategoryMissing, AccountMissing, Chosen;
      Assembled(Model(), t, lists);
      selected := t.id;
      TakeTexts(t);
      var kind := fields[Type].text;
      accountMissing := TakeSides(t, lists, kind);
      categoryMissing := TakeCategory(t, lists, kind);
      applied, appliedLegs := t.fields.Keys, t.legs != [];
    }

    method ResetCreateDraft(lists: Lists)
      requires Whole(Model())
      modifies this
      ensures Model() == Reset(old(Model()), lists)
    {
      hide DefaultAccount;
      var (before, kind, category) := (Model(), setup.createType, setup.initialCategoryId);
      selected, applied, appliedLegs, legs := "", {}, false, [];
      var name := if category in lists.categories then lists.categories[category] else "";
      var now := fields[Type := Value(kind, Supplied)][Date := Value(lists.today, Supplied)];
      now := now[Payee := Value(setup.initialPayee, Supplied)][Description := BLANK];
      now := now[CategoryId := Value(category, Supplied)][CategoryName := Value(name, Supplied)];
      now := now[Notes := BLANK];
      now := now[FromAccountId := Value(DefaultAccount(setup, lists, kind, FromAccountId), Supplied)];
      now := now[ToAccountId := Value(DefaultAccount(setup, lists, kind, ToAccountId), Supplied)];
      now := now[Amount := BLANK][DestinationAmount := BLANK];
      assert now == Reset(before, lists).fields;
      fields := now;
    }
  }

  datatype Step = Step(event: Event, lists: Lists)

  ghost predicate Run(s: State, steps: seq<Step>, t: State)
    requires Whole(s)
    decreases |steps|
  {
    if steps == [] then t == s
    else Enabled(s, steps[0].event) && Run(Apply(s, steps[0].event, steps[0].lists), steps[1..], t)
  }

  // ---------------------------------------------------------------------------------------
  // No value of a template outlives its choice.
  // ---------------------------------------------------------------------------------------

  predicate AppliedCategory(s: State) {
    CategoryId in s.applied || CategoryName in s.applied || s.appliedLegs
  }

  /** If a template supplied the value, it is the one now selected, and `applied` knows to undo it. */
  predicate Current(s: State, v: Value, undone: bool) {
    v.origin.FromTemplate? ==> v.origin.id == s.selected && undone
  }

  predicate FieldCurrent(s: State, f: Field)
    requires Whole(s)
  {
    Current(s, s.fields[f], if f.CategoryId? || f.CategoryName? then AppliedCategory(s) else f in s.applied)
  }

  predicate LegCurrent(s: State, leg: Leg) {
    && Current(s, leg.categoryId, AppliedCategory(s)) && Current(s, leg.categoryName, AppliedCategory(s))
    && Current(s, leg.note, AppliedCategory(s))
  }

  ghost predicate Invariant(s: State) {
    && Whole(s)
    && (forall f: Field :: FieldCurrent(s, f))
    && (forall leg :: leg in s.legs ==> LegCurrent(s, leg))
    && (s.legs == [] || 2 <= |s.legs| <= MAX_TRANSACTION_LEGS)
  }

  lemma ChosenFields(s: State, t: Template, lists: Lists, f: Field)
    requires Invariant(s) && Storable(t)
    ensures FieldCurrent(Chosen(s, t, lists), f)
  {
    assert FieldCurrent(s, f);
  }

  lemma ChosenLegs(s: State, t: Template, lists: Lists)
    requires Invariant(s) && Storable(t)
    ensures var n := Chosen(s, t, lists);
      && (forall leg :: leg in n.legs ==> LegCurrent(n, leg))
      && (n.legs == [] || 2 <= |n.legs| <= MAX_TRANSACTION_LEGS)
  {
    forall leg | leg in s.legs ensures LegCurrent(s, leg) {}
  }

  lemma ResetFields(s: State, lists: Lists, f: Field)
    requires Whole(s)
    ensures FieldCurrent(Reset(s, lists), f)
  {
  }

  lemma RemovedFields(s: State, i: nat, f: Field)
    requires Invariant(s) && i < |s.legs|
    ensures FieldCurrent(LegRemoved(s, i), f)
  {
    assert FieldCurrent(s, f);
    forall j | 0 <= j < |s.legs| ensures LegCurrent(s, s.legs[j]) { assert s.legs[j] in s.legs; }
  }

  lemma TypedFields(s: State, next: string, lists: Lists, f: Field)
    requires Invariant(s)
    ensures FieldCurrent(WithType(s, next, lists), f)
  {
    assert FieldCurrent(s, f);
    hide DefaultAccount, LegCurrent;
  }

  lemma AccountFields(s: State, side: Field, id: string, f: Field)
    requires Invariant(s) && IsSide(side)
    ensures FieldCurrent(WithAccount(s, side, id), f)
  {
    hide CompareMoney;
    assert FieldCurrent(s, f);
  }

  lemma HandleFields(s: State, e: Event, lists: Lists, f: Field)
    requires Invariant(s) && Enabled(s, e) && !e.Choose?
    ensures FieldCurrent(Handle(s, e, lists), f)
  {
    assert FieldCurrent(s, f);
    hide Reset, LegRemoved, WithType, WithAccount, LegEdited;
    match e {
      case StartOver => ResetFields(s, lists, f);
      case RemoveLeg(i) => RemovedFields(s, i, f);
      case PickType(next) => TypedFields(s, next, lists, f);
      case PickAccount(side, id) => AccountFields(s, side, id, f);
      case _ =>
    }
  }

  /** A leg is one that was there, the blank one, one that was edited, or one made of the form's own fields. */
  lemma HandleLegs(s: State, e: Event, lists: Lists, i: nat)
    requires Invariant(s) && Enabled(s, e) && !e.Choose? && i < |Handle(s, e, lists).legs|
    ensures LegCurrent(Handle(s, e, lists), Handle(s, e, lists).legs[i])
  {
    forall j | 0 <= j < |s.legs| ensures LegCurrent(s, s.legs[j]) { assert s.legs[j] in s.legs; }
    assert FieldCurrent(s, CategoryId) && FieldCurrent(s, CategoryName);
  }

  lemma HandleKeeps(s: State, e: Event, lists: Lists)
    requires Invariant(s) && Enabled(s, e) && !e.Choose?
    ensures Invariant(Handle(s, e, lists))
  {
    var n := Handle(s, e, lists);
    hide Handle, LegCurrent, FieldCurrent, Enabled;
    forall f: Field ensures FieldCurrent(n, f) { HandleFields(s, e, lists, f); }
    forall leg | leg in n.legs ensures LegCurrent(n, leg) {
      var i :| 0 <= i < |n.legs| && n.legs[i] == leg;
      HandleLegs(s, e, lists, i);
    }
    LegCountKept(s, e, lists);
  }

  lemma LegCountKept(s: State, e: Event, lists: Lists)
    requires Invariant(s) && Enabled(s, e) && !e.Choose?
    ensures var n := Handle(s, e, lists); n.legs == [] || 2 <= |n.legs| <= MAX_TRANSACTION_LEGS
  {
  }

  lemma SettledKeeps(s: State, lists: Lists)
    requires Invariant(s)
    ensures Invariant(Settled(s, lists))
  {
    var n := Settled(s, lists);
    forall f: Field ensures FieldCurrent(n, f) { assert FieldCurrent(s, f); }
    forall leg | leg in n.legs ensures LegCurrent(n, leg) { assert LegCurrent(s, leg); }
  }

  lemma StepKeeps(s: State, e: Event, lists: Lists)
    requires Invariant(s) && Enabled(s, e)
    ensures Invariant(Apply(s, e, lists))
  {
    if e.Choose? {
      forall f: Field ensures FieldCurrent(Chosen(s, e.template, lists), f) { ChosenFields(s, e.template, lists, f); }
      ChosenLegs(s, e.template, lists);
    } else {
      HandleKeeps(s, e, lists);
    }
    SettledKeeps(Handle(s, e, lists), lists);
  }

  lemma {:induction false} EveryRunKeeps(s: State, steps: seq<Step>, t: State)
    requires Whole(s) && Invariant(s) && Run(s, steps, t)
    ensures Invariant(t)
    decreases |steps|
  {
    hide Invariant, Apply, Enabled;
    if steps != [] {
      StepKeeps(s, steps[0].event, steps[0].lists);
      EveryRunKeeps(Apply(s, steps[0].event, steps[0].lists), steps[1..], t);
    }
  }

  predicate OwnLeg(leg: Leg) {
    leg.categoryId.origin.Opened? && leg.categoryName.origin.Opened? && leg.amount.origin.Opened? && leg.note.origin.Opened?
  }

  /** The state the form opens in, a stored split having two legs or more. */
  ghost predicate Opens(setup: Setup, legs: seq<Leg>) {
    && (forall f: Field :: f in setup.base)
    && (forall leg :: leg in legs ==> OwnLeg(leg))
    && (legs == [] || 2 <= |legs| <= MAX_TRANSACTION_LEGS)
  }

  function Start(setup: Setup, legs: seq<Leg>, lists: Lists): (s: State)
    requires forall f: Field :: f in setup.base
    ensures Whole(s)
  {
    Settled(Mounted(setup, legs), lists)
  }

  lemma StartTrue(setup: Setup, legs: seq<Leg>, lists: Lists)
    requires Opens(setup, legs)
    ensures Invariant(Start(setup, legs, lists))
  {
    var s := Mounted(setup, legs);
    forall leg | leg in s.legs ensures LegCurrent(s, leg) { assert OwnLeg(leg); }
    SettledKeeps(s, lists);
  }

  /** Over every run of typing, choosing, splitting and starting over, no field of the form holds a
      value some other template supplied; and a leg's category and note never do either. */
  lemma NoOtherTemplate(setup: Setup, legs: seq<Leg>, lists: Lists, steps: seq<Step>, s: State, f: Field)
    requires Opens(setup, legs) && Run(Start(setup, legs, lists), steps, s)
    ensures Whole(s)
    ensures s.fields[f].origin.FromTemplate? ==> s.fields[f].origin.id == s.selected
    ensures forall leg :: leg in s.legs ==> LegCurrent(s, leg)
  {
    StartTrue(setup, legs, lists);
    EveryRunKeeps(Start(setup, legs, lists), steps, s);
    assert FieldCurrent(s, f);
  }

  /** In every state the form can be in, there are no legs or between two and the cap. */
  lemma LegCount(setup: Setup, legs: seq<Leg>, lists: Lists, steps: seq<Step>, s: State)
    requires Opens(setup, legs) && Run(Start(setup, legs, lists), steps, s)
    ensures s.legs == [] || 2 <= |s.legs| <= MAX_TRANSACTION_LEGS
  {
    StartTrue(setup, legs, lists);
    EveryRunKeeps(Start(setup, legs, lists), steps, s);
  }

  // ---------------------------------------------------------------------------------------
  // A leg's amount is the exception: a split copies it where no later choice undoes it.
  // ---------------------------------------------------------------------------------------

  predicate AmountCurrent(s: State, leg: Leg) {
    Current(s, leg.amount, AppliedCategory(s))
  }

  /** The guard that fails: splitting while the amount is a template's that says nothing of categories. */
  predicate Copies(s: State, e: Event)
    requires Whole(s)
  {
    e.StartSplit? && s.fields[Amount].origin.FromTemplate? && !AppliedCategory(s)
  }

  ghost predicate Calm(s: State, steps: seq<Step>)
    requires Whole(s)
    decreases |steps|
  {
    steps == [] || (&& Enabled(s, steps[0].event) && !Copies(s, steps[0].event)
                    && Calm(Apply(s, steps[0].event, steps[0].lists), steps[1..]))
  }

  lemma AmountsKept(s: State, e: Event, lists: Lists)
    requires Invariant(s) && Enabled(s, e) && !Copies(s, e)
    requires forall i :: 0 <= i < |s.legs| ==> AmountCurrent(s, s.legs[i])
    ensures var n := Apply(s, e, lists); forall i :: 0 <= i < |n.legs| ==> AmountCurrent(n, n.legs[i])
  {
    assert FieldCurrent(s, Amount);
  }

  /** Without such a split, no leg's amount is another template's either. */
  lemma {:induction false} CalmAmounts(s: State, steps: seq<Step>, t: State)
    requires Whole(s) && Invariant(s) && Run(s, steps, t) && Calm(s, steps)
    requires forall i :: 0 <= i < |s.legs| ==> AmountCurrent(s, s.legs[i])
    ensures forall i :: 0 <= i < |t.legs| ==> AmountCurrent(t, t.legs[i])
    decreases |steps|
  {
    hide Invariant, Apply, Enabled, AmountCurrent, Copies;
    if steps != [] {
      AmountsKept(s, steps[0].event, steps[0].lists);
      StepKeeps(s, steps[0].event, steps[0].lists);
      CalmAmounts(Apply(s, steps[0].event, steps[0].lists), steps[1..], t);
    }
  }

  /** Splitting and then choosing another template leaves the first leg with an amount of the
      template chosen before exactly when that template set the amount and no category, and the new
      one sets no category. */
  lemma SplitThenChoose(s: State, t: Template, before: Lists, after: Lists)
    requires Invariant(s) && Enabled(s, StartSplit) && Storable(t) && t.id != s.selected
    ensures var n := Apply(Apply(s, StartSplit, before), Choose(t), after);
      var stale := n.legs != [] && n.legs[0].amount.origin.FromTemplate? && n.legs[0].amount.origin.id != t.id;
      stale <==> Copies(s, StartSplit) && !HasCategory(t)
  {
    hide Settled, FirstWritable, DefaultAccount, Offered, TakenAccount, Taken, LegCurrent, Usable;
    assert FieldCurrent(s, Amount);
    var split := SplitStarted(s);
    SettledSame(split, before);
    var now := Settled(split, before);
    SettledSame(Chosen(now, t, after), after);
    ChosenSide(now, t, after);
  }

  lemma ChosenSide(s: State, t: Template, lists: Lists)
    requires Whole(s)
    ensures Chosen(s, t, lists).legs == TakenCategory(s, t, lists, Taken(s, t, Type).text).legs
    ensures forall i :: 0 <= i < |t.legs| && i < |Chosen(s, t, lists).legs| ==>
      var amount := Chosen(s, t, lists).legs[i].amount; amount.origin.FromTemplate? ==> amount.origin.id == t.id
  {
    hide TakenAccount, Taken, Usable;
  }

  // ---------------------------------------------------------------------------------------
  // What a choice fills in.
  // ---------------------------------------------------------------------------------------

  function OrBlank(text: Option<string>): string {
    if text.Some? then text.value else ""
  }

  /** A category and its name: the listed one if the list has it and the entry may have one, else none. */
  predicate ShowsListed(id: Value, name: Value, wanted: string, lists: Lists, transfer: bool) {
    if wanted in lists.categories && !transfer then id.text == wanted && name.text == lists.categories[wanted]
    else id.text == "" && name.text == ""
  }

  predicate LegShows(leg: Leg, of: TemplateLeg, lists: Lists, transfer: bool) {
    && leg.id == "" && leg.amount.text == OrBlank(of.amount) && leg.note.text == OrBlank(of.note)
    && (if OrBlank(of.categoryId) != "" then ShowsListed(leg.categoryId, leg.categoryName, OrBlank(of.categoryId), lists, transfer)
        else leg.categoryId.text == "" && leg.categoryName.text == OrBlank(of.categoryName))
  }

  /** What the form shows of the category side of a template that has one. */
  ghost predicate CategoryShown(n: State, t: Template, lists: Lists)
    requires Whole(n)
  {
    var transfer := n.fields[Type].text == "transfer";
    if t.legs != [] then
      && n.fields[CategoryId].text == "" && n.fields[CategoryName].text == ""
      && |n.legs| == |t.legs| && forall i :: 0 <= i < |t.legs| ==> LegShows(n.legs[i], t.legs[i], lists, transfer)
    else
      && (CategoryId in t.fields ==>
            n.legs == [] && ShowsListed(n.fields[CategoryId], n.fields[CategoryName], t.fields[CategoryId], lists, transfer))
      && (CategoryId !in t.fields && CategoryName in t.fields ==>
            n.legs == [] && n.fields[CategoryId].text == "" && n.fields[CategoryName].text == t.fields[CategoryName])
  }

  /** And of one that has none: what the form opened with if the last template had set it, or what it showed. */
  ghost predicate CategoryKept(s: State, n: State)
    requires Whole(s) && Whole(n)
  {
    var undone := AppliedCategory(s);
    var id := if undone then s.setup.base[CategoryId] else s.fields[CategoryId].text;
    var name := if undone then s.setup.base[CategoryName] else s.fields[CategoryName].text;
    var dropped := n.fields[Type].text == "transfer" && id != "";
    && n.legs == (if undone then [] else s.legs)
    && n.fields[CategoryId].text == (if dropped then "" else id)
    && n.fields[CategoryName].text == (if dropped then "" else name)
  }

  /** A template chosen in any state of the form: its category or its legs are shown with the names the
      list gives, what the list does not offer is left blank, and a template that says nothing of
      categories leaves or puts back the side as a whole. */
  lemma ChoiceShowsCategory(s: State, t: Template, lists: Lists)
    requires Whole(s) && Storable(t)
    ensures var n := Apply(s, Choose(t), lists);
      CategoryShown(n, t, lists) && (!HasCategory(t) ==> CategoryKept(s, n))
  {
    hide TakenAccount, FirstWritable, Taken, TakenLegs, LegShows;
    var n := Chosen(s, t, lists);
    var kind := n.fields[Type].text;
    assert n.legs == TakenCategory(s, t, lists, kind).legs && kind == Taken(s, t, Type).text;
    if t.legs != [] {
      assert n.legs == TakenLegs(t, lists, kind);
      LegsShow(t, lists, kind);
    }
  }

  lemma LegsShow(t: Template, lists: Lists, kind: string)
    ensures var legs := TakenLegs(t, lists, kind);
      |legs| == |t.legs| && forall i :: 0 <= i < |t.legs| ==> LegShows(legs[i], t.legs[i], lists, kind == "transfer")
  {
  }

  /** The accounts the form can show: those of the list not archived. */
  ghost predicate CanShow(lists: Lists, id: string) {
    exists i :: 0 <= i < |lists.accounts| && lists.accounts[i].id == id && !lists.accounts[i].archived
  }

  lemma OfferedIs(lists: Lists, id: string)
    ensures Offered(lists, id) <==> CanShow(lists, id)
  {
    if i :| 0 <= i < |lists.accounts| && lists.accounts[i].id == id && !lists.accounts[i].archived {
      assert lists.accounts[i] in lists.accounts;
    }
  }

  /** The other fields: the template's where it carries one, what the form opened with where the last
      template had set one, and what was there otherwise; an account only if the form can show it. */
  lemma ChoiceShowsFields(s: State, t: Template, lists: Lists, f: Field)
    requires Whole(s) && Storable(t) && (IsScalar(f) || IsSide(f))
    ensures var n := Apply(s, Choose(t), lists);
      && n.selected == t.id
      && (f in t.fields && (IsSide(f) ==> CanShow(lists, t.fields[f])) ==> n.fields[f].text == t.fields[f])
      && (IsSide(f) && f in t.fields && !CanShow(lists, t.fields[f]) && s.setup.base[f] != "" ==> n.fields[f].text == s.setup.base[f])
      && (f !in t.fields && f in s.applied && (IsSide(f) ==> s.setup.base[f] != "") ==> n.fields[f].text == s.setup.base[f])
      && (f !in t.fields && f !in s.applied && (IsSide(f) ==> s.fields[f].text != "") ==> n.fields[f] == s.fields[f])
  {
    hide TakenCategory, DefaultAccount, FirstWritable, Offered, CanShow, Settled;
    if f in t.fields { OfferedIs(lists, t.fields[f]); }
    ChosenField(s, t, lists, f);
    hide Chosen, TakenAccount, Taken;
    SettledSame(Chosen(s, t, lists), lists);
  }

  lemma ChosenField(s: State, t: Template, lists: Lists, f: Field)
    requires Whole(s) && (IsScalar(f) || IsSide(f))
    ensures var n := Chosen(s, t, lists);
      && n.selected == t.id
      && n.fields[f] == if IsSide(f) then TakenAccount(s, t, lists, Taken(s, t, Type).text, f) else Taken(s, t, f)
  {
    hide TakenCategory, TakenAccount, Taken;
  }

  /** The notice after a choice: an account is missing when the template names one the form cannot show, a
      category when it, or one of its legs, names one the list does not have or a transfer may not. */
  lemma NoticeIs(t: Template, lists: Lists, kind: string)
    ensures AccountMissing(t, lists) <==>
      exists f :: IsSide(f) && f in t.fields && t.fields[f] != "" && !CanShow(lists, t.fields[f])
    ensures CategoryMissing(t, lists, kind) <==>
      || (exists i :: 0 <= i < |t.legs| && OrBlank(t.legs[i].categoryId) != ""
                      && (OrBlank(t.legs[i].categoryId) !in lists.categories || kind == "transfer"))
      || (t.legs == [] && CategoryId in t.fields && t.fields[CategoryId] != ""
          && (t.fields[CategoryId] !in lists.categories || kind == "transfer"))
  {
    hide Offered, CanShow;
    forall f | IsSide(f) && f in t.fields ensures Offered(lists, t.fields[f]) <==> CanShow(lists, t.fields[f]) {
      OfferedIs(lists, t.fields[f]);
    }
    assert IsSide(FromAccountId) && IsSide(ToAccountId);
    forall i | 0 <= i < |t.legs|
      ensures LegMissing(t, lists, kind, i) <==>
                (OrBlank(t.legs[i].categoryId) != "" && (OrBlank(t.legs[i].categoryId) !in lists.categories || kind == "transfer"))
    {
    }
  }

  // ---------------------------------------------------------------------------------------
  // With nothing typed, the form is what it opened with and the last template over it.
  // ---------------------------------------------------------------------------------------

  predicate IsScalar(f: Field) {
    f.Type? || IsText(f)
  }

  function Overlaid(setup: Setup, t: Template, lists: Lists, f: Field): string
    requires forall g: Field :: g in setup.base
  {
    if f in t.fields && (IsSide(f) ==> Offered(lists, t.fields[f])) then t.fields[f] else setup.base[f]
  }

  /** Nothing but choices of templates, the lists not changing meanwhile. */
  predicate OnlyChoices(steps: seq<Step>, lists: Lists) {
    forall i :: 0 <= i < |steps| ==> steps[i].event.Choose? && steps[i].lists == lists
  }

  function LastChoice(steps: seq<Step>, first: Template): Template {
    if steps == [] then first
    else if steps[|steps| - 1].event.Choose? then steps[|steps| - 1].event.template else first
  }

  ghost predicate Overlays(s: State, t: Template, lists: Lists) {
    && Whole(s) && Storable(t) && s.selected == t.id && s.applied == t.fields.Keys
    && (forall f: Field :: IsScalar(f) || (IsSide(f) && s.setup.base[f] != "") ==>
          s.fields[f].text == Overlaid(s.setup, t, lists, f))
  }

  lemma ChoiceOverlays(s: State, last: Template, t: Template, lists: Lists)
    requires Overlays(s, last, lists) && Storable(t)
    ensures Overlays(Apply(s, Choose(t), lists), t, lists)
  {
    hide FirstWritable, DefaultAccount, TakenCategory, Offered;
    var n := Chosen(s, t, lists);
    forall f: Field | IsScalar(f) || (IsSide(f) && s.setup.base[f] != "")
      ensures n.fields[f].text == Overlaid(s.setup, t, lists, f)
    {
      assert s.fields[f].text == Overlaid(s.setup, last, lists, f);
    }
    SettledSame(n, lists);
  }

  /** The effects touch only blank accounts and the category. */
  lemma SettledSame(s: State, lists: Lists)
    requires Whole(s)
    ensures var n := Settled(s, lists);
      && (forall f: Field :: IsScalar(f) || (IsSide(f) && s.fields[f].text != "") ==> n.fields[f] == s.fields[f])
      && n.legs == s.legs && n.selected == s.selected && n.applied == s.applied && n.appliedLegs == s.appliedLegs
  {
  }

  lemma {:induction false} ChoicesOverlay(s: State, steps: seq<Step>, t: State, last: Template, lists: Lists)
    requires Whole(s) && Overlays(s, last, lists) && OnlyChoices(steps, lists) && Run(s, steps, t)
    ensures Overlays(t, LastChoice(steps, last), lists)
    decreases |steps|
  {
    hide Apply, Overlays;
    if steps != [] {
      ChoiceOverlays(s, last, steps[0].event.template, lists);
      ChoicesOverlay(Apply(s, steps[0].event, lists), steps[1..], t, steps[0].event.template, lists);
    }
  }

  /** After any run of choices alone, the type, the texts, the amounts and the accounts the form
      opened with are what it opened with, overlaid by the last template and by no other. */
  lemma LastTemplateAlone(setup: Setup, legs: seq<Leg>, lists: Lists, steps: seq<Step>, s: State, f: Field)
    requires Opens(setup, legs) && OnlyChoices(steps, lists) && Run(Start(setup, legs, lists), steps, s)
    requires IsScalar(f) || (IsSide(f) && setup.base[f] != "")
    ensures Whole(s) && s.setup == setup
    ensures s.fields[f].text == Overlaid(setup, LastChoice(steps, NO_TEMPLATE), lists, f)
    ensures CategoryShown(s, LastChoice(steps, NO_TEMPLATE), lists)
  {
    hide FirstWritable, DefaultAccount, Offered, Settled, Apply, CategoryShown;
    LastChoiceShown(setup, legs, lists, steps, s);
    StartOverlays(setup, legs, lists);
    ChoicesOverlay(Start(setup, legs, lists), steps, s, NO_TEMPLATE, lists);
    SetupKept(Start(setup, legs, lists), steps, s);
  }

  lemma LastChoiceShown(setup: Setup, legs: seq<Leg>, lists: Lists, steps: seq<Step>, s: State)
    requires Opens(setup, legs) && OnlyChoices(steps, lists) && Run(Start(setup, legs, lists), steps, s)
    ensures Whole(s) && CategoryShown(s, LastChoice(steps, NO_TEMPLATE), lists)
  {
    hide Apply, Enabled;
    if steps == [] {
      assert Start(setup, legs, lists) == s;
    } else {
      var u := RunLast(Start(setup, legs, lists), steps, s);
      var last := steps[|steps| - 1];
      assert Enabled(u, last.event);
      ChoiceShown(u, last, lists);
    }
  }

  lemma ChoiceShown(u: State, step: Step, lists: Lists)
    requires Whole(u) && step.event.Choose? && step.lists == lists && Enabled(u, step.event)
    ensures CategoryShown(Apply(u, step.event, lists), step.event.template, lists)
  {
    hide Apply, CategoryShown, CategoryKept;
    assert step.event == Choose(step.event.template);
    ChoiceShowsCategory(u, step.event.template, lists);
  }

  /** The state before the last step of a run. */
  lemma {:induction false} RunLast(s: State, steps: seq<Step>, t: State) returns (u: State)
    requires Whole(s) && steps != [] && Run(s, steps, t)
    ensures Whole(u) && Enabled(u, steps[|steps| - 1].event)
    ensures t == Apply(u, steps[|steps| - 1].event, steps[|steps| - 1].lists)
    decreases |steps|
  {
    hide Apply, Enabled;
    if |steps| == 1 {
      u := s;
    } else {
      u := RunLast(Apply(s, steps[0].event, steps[0].lists), steps[1..], t);
    }
  }

  lemma StartOverlays(setup: Setup, legs: seq<Leg>, lists: Lists)
    requires Opens(setup, legs)
    ensures Overlays(Start(setup, legs, lists), NO_TEMPLATE, lists) && Start(setup, legs, lists).setup == setup
  {
    SettledSame(Mounted(setup, legs), lists);
  }

  lemma {:induction false} SetupKept(s: State, steps: seq<Step>, t: State)
    requires Whole(s) && Run(s, steps, t)
    ensures Whole(t) && t.setup == s.setup
    decreases |steps|
  {
    hide Apply, Enabled;
    if steps != [] { SetupKept(Apply(s, steps[0].event, steps[0].lists), steps[1..], t); }
  }

  /** Going back to no template puts a text the template had set back to what the form opened with,
      whatever was typed there before the template was chosen; a text it left alone stays as typed. */
  lemma TypingBeforeTemplate(s: State, t: Template, lists: Lists, f: Field)
    requires Invariant(s) && Storable(t) && IsText(f)
    ensures var n := Apply(Apply(s, Choose(t), lists), Choose(NO_TEMPLATE), lists);
      n.fields[f] == if f in t.fields || f in s.applied then Base(s, f) else s.fields[f]
  {
    hide Settled, Chosen, FieldCurrent, LegCurrent;
    var chosen := Chosen(s, t, lists);
    SettledSame(chosen, lists);
    ChosenText(s, t, lists, f);
    var now := Apply(s, Choose(t), lists);
    SettledSame(Chosen(now, NO_TEMPLATE, lists), lists);
    ChosenText(now, NO_TEMPLATE, lists, f);
  }

  lemma ChosenText(s: State, t: Template, lists: Lists, f: Field)
    requires Whole(s) && IsText(f)
    ensures var n := Chosen(s, t, lists);
      Whole(n) && n.fields[f] == Taken(s, t, f) && n.applied == t.fields.Keys && n.setup == s.setup
  {
    hide TakenAccount, TakenCategory;
  }

  /** Choosing a template and then none gives the category back exactly when the template did not
      pass through a transfer without naming a category, and a stored split back exactly when the
      template left the category side alone: what the form goes back to holds no legs. */
  lemma ThereAndBack(setup: Setup, legs: seq<Leg>, lists: Lists, t: Template)
    requires Opens(setup, legs) && Storable(t) && setup.base[Type] != "transfer"
    ensures var s := Apply(Apply(Start(setup, legs, lists), Choose(t), lists), Choose(NO_TEMPLATE), lists);
      && (s.fields[CategoryId].text == setup.base[CategoryId] <==>
          !(setup.base[CategoryId] != "" && !HasCategory(t) && Type in t.fields && t.fields[Type] == "transfer"))
      && (s.legs == legs <==> legs == [] || !HasCategory(t))
  {
    hide FirstWritable, DefaultAccount, Offered;
  }

  // ---------------------------------------------------------------------------------------
  // The split editor's sum, and what is sent.
  // ---------------------------------------------------------------------------------------

  function LegAmounts(legs: seq<Leg>): seq<string> {
    seq(|legs|, i requires 0 <= i < |legs| => if legs[i].amount.text == "" then "0" else legs[i].amount.text)
  }

  function ShownRemainder(s: State): Option<string>
    requires Whole(s)
  {
    Remainder(s.fields[Amount].text, LegAmounts(s.legs))
  }

  predicate Splitting(s: State)
    requires Whole(s)
  {
    s.fields[Type].text != "transfer" && |s.legs| >= 2
  }

  predicate CanSave(s: State)
    requires Whole(s)
  {
    !Splitting(s) || IsZeroMoney(ShownRemainder(s))
  }

  /** Removing the blank second leg of a split just started undoes the start, category and all. */
  lemma SplitUndone(s: State)
    requires Whole(s) && s.legs == []
    ensures LegRemoved(SplitStarted(s), 1) == s
  {
    var n := LegRemoved(SplitStarted(s), 1);
    assert SplitStarted(s).legs[..1] + SplitStarted(s).legs[2..] == [SplitStarted(s).legs[0]];
    assert n.fields == s.fields;
  }

  /** A blank amount takes nothing. */
  lemma BlankTakesNothing(total: string, shares: seq<string>)
    ensures Remainder(total, shares + ["0"]) == Remainder(total, shares)
  {
    hide MoneyUnits, MoneyFromUnits, Total;
    ZeroReads();
    TotalAppend(shares, ["0"]);
    TotalOne("0");
    forall i | 0 <= i < |shares| ensures (shares + ["0"])[i] == shares[i] {}
    assert (shares + ["0"])[|shares|] == "0";
  }

  /** A leg added is blank and last, and leaves over what was left over. */
  lemma LegAdded(s: State, lists: Lists)
    requires Whole(s) && Enabled(s, AddLeg)
    ensures var n := Apply(s, AddLeg, lists);
      n.legs == s.legs + [NEW_LEG] && ShownRemainder(n) == ShownRemainder(s)
  {
    var h := Handle(s, AddLeg, lists);
    EffectsFill(h, lists, Amount);
    BlankTakesNothing(s.fields[Amount].text, LegAmounts(s.legs));
    AmountsWith(s.legs);
    hide Settled, Remainder, LegAmounts, IsZeroMoney;
  }

  lemma AmountsWith(legs: seq<Leg>)
    ensures LegAmounts(legs + [NEW_LEG]) == LegAmounts(legs) + ["0"]
  {
  }

  lemma AmountsWithout(legs: seq<Leg>, i: nat)
    requires i < |legs|
    ensures var rest := legs[..i] + legs[i + 1..];
      Total(LegAmounts(legs)) == Total(LegAmounts(rest)) + UnitsOrZero(LegAmounts(legs)[i])
  {
    hide Total, UnitsOrZero;
    TotalWithout(LegAmounts(legs), i);
    assert LegAmounts(legs[..i] + legs[i + 1..]) == LegAmounts(legs)[..i] + LegAmounts(legs)[i + 1..];
  }

  /** A leg removed from three or more leaves the others as they were, and its amount left over beside what
      was; from two, it leaves the other's category to the whole entry. */
  lemma LegGone(s: State, i: nat, lists: Lists)
    requires Whole(s) && Enabled(s, RemoveLeg(i)) && |s.legs| >= 2
    ensures var n := Apply(s, RemoveLeg(i), lists);
      if |s.legs| >= 3 then
        && n.legs == s.legs[..i] + s.legs[i + 1..]
        && n.fields[CategoryId] == s.fields[CategoryId] && n.fields[CategoryName] == s.fields[CategoryName]
        && Total(LegAmounts(s.legs)) == Total(LegAmounts(n.legs)) + UnitsOrZero(LegAmounts(s.legs)[i])
      else
        && n.legs == []
        && n.fields[CategoryId] == s.legs[1 - i].categoryId && n.fields[CategoryName] == s.legs[1 - i].categoryName
  {
    hide Settled, LegRemoved, LegAmounts, Total, UnitsOrZero;
    var h := Handle(s, RemoveLeg(i), lists);
    EffectsFill(h, lists, CategoryId);
    EffectsFill(h, lists, CategoryName);
    RemovedLegs(s, i);
    AmountsWithout(s.legs, i);
  }

  lemma RemovedLegs(s: State, i: nat)
    requires Whole(s) && 2 <= |s.legs| && i < |s.legs|
    ensures var h := LegRemoved(s, i);
      && h.fields[Type] == s.fields[Type]
      && (if |s.legs| >= 3 then h == s.(legs := s.legs[..i] + s.legs[i + 1..])
          else h.legs == [] && h.fields[CategoryId] == s.legs[1 - i].categoryId && h.fields[CategoryName] == s.legs[1 - i].categoryName)
  {
  }

  /** Choosing an account drops a readable received amount exactly when it is the sent amount over
      again, however either is written; a rate somebody typed survives. */
  lemma RateSurvives(s: State, side: Field, id: string)
    requires Whole(s) && IsSide(side)
    requires MoneyUnits(s.fields[DestinationAmount].text).Some?
    ensures var (was, now) := (s.fields[DestinationAmount], WithAccount(s, side, id).fields[DestinationAmount]);
      && (now == was <==> MoneyUnits(was.text) != MoneyUnits(s.fields[Amount].text))
      && (now != was ==> now == BLANK)
  {
    BlankUnreadable();
    hide MoneyUnits;
  }

  /** Starting a split leaves nothing over exactly when there is a readable total to divide. */
  lemma SplitStartsSettled(s: State)
    requires Whole(s)
    ensures IsZeroMoney(ShownRemainder(SplitStarted(s))) <==> MoneyUnits(s.fields[Amount].text).Some?
  {
    hide MoneyUnits, MoneyFromUnits, Total;
    var (n, total) := (SplitStarted(s), s.fields[Amount].text);
    var first := if total == "" then "0" else total;
    assert LegAmounts(n.legs) == [first, "0"];
    ZeroReads();
    if MoneyUnits(total).Some? {
      assert total != "" by { BlankUnreadable(); }
      assert Readable([total, "0"]);
      TotalAppend([total], ["0"]);
      assert [total] + ["0"] == [total, "0"];
      TotalOne(total);
      TotalOne("0");
      RemainderConserves(total, [total, "0"], [total, "0"]);
    }
  }

  lemma BlankUnreadable()
    ensures MoneyUnits("").None?
  {
  }

  /** What is sent for one leg. */
  datatype SentLeg = SentLeg(id: Option<string>, categoryId: Option<string>, categoryName: Option<string>,
                             amount: string, note: Option<string>)

  /** What is sent for the entry; a field the source leaves out of the request is `None`. */
  datatype Draft = Draft(kind: string, date: string, payee: string, description: Option<string>,
                         categoryId: Option<string>, categoryName: Option<string>, legs: Option<seq<SentLeg>>,
                         notes: Option<string>, externalId: Option<string>, templateId: Option<string>,
                         fromAccountId: Option<string>, toAccountId: Option<string>,
                         amount: string, destinationAmount: Option<string>)

  /** What the opened row carries through a save that never shows it. */
  datatype Carried = Carried(categoryId: string, categoryName: string, externalId: string, templateId: string)

  function OrNull(text: string): Option<string> {
    if text == "" then None else Some(text)
  }

  function SentLegOf(leg: Leg): SentLeg {
    SentLeg(OrNull(leg.id), OrNull(leg.categoryId.text),
            if leg.categoryId.text != "" then None else OrNull(Trim(leg.categoryName.text)),
            leg.amount.text, OrNull(Trim(leg.note.text)))
  }

  function CurrencyOf(accounts: seq<Account>, id: string): Option<string> {
    if accounts == [] then None
    else if accounts[0].id == id then Some(accounts[0].currency) else CurrencyOf(accounts[1..], id)
  }

  /** The currency of the account the list has under an id, the first of them. */
  lemma {:induction false} CurrencyOfIs(accounts: seq<Account>, id: string)
    ensures CurrencyOf(accounts, id).None? <==> forall i :: 0 <= i < |accounts| ==> accounts[i].id != id
    ensures CurrencyOf(accounts, id).Some? ==>
      exists i :: 0 <= i < |accounts| && accounts[i].id == id && accounts[i].currency == CurrencyOf(accounts, id).value
                  && forall j :: 0 <= j < i ==> accounts[j].id != id
  {
    if accounts != [] && accounts[0].id != id {
      CurrencyOfIs(accounts[1..], id);
      if i :| 0 <= i < |accounts[1..]| && accounts[1..][i].id == id && accounts[1..][i].currency == CurrencyOf(accounts, id).value
              && forall j :: 0 <= j < i ==> accounts[1..][j].id != id {
        assert accounts[i + 1].id == id && forall j :: 0 < j < i + 1 ==> accounts[j] == accounts[1..][j - 1];
      }
      forall i | 0 <= i < |accounts| ensures i > 0 ==> accounts[i] == accounts[1..][i - 1] {}
    }
  }

  predicate CrossCurrency(s: State, lists: Lists)
    requires Whole(s)
  {
    var source := CurrencyOf(lists.accounts, s.fields[FromAccountId].text);
    var destination := CurrencyOf(lists.accounts, s.fields[ToAccountId].text);
    s.fields[Type].text == "transfer" && source.Some? && destination.Some? && source != destination
  }

  function Submit(s: State, initial: Carried, lists: Lists): Draft
    requires Whole(s)
  {
    var (kind, splitting) := (s.fields[Type].text, Splitting(s));
    var picker := !splitting && kind != "transfer";
    Draft(kind, s.fields[Date].text, s.fields[Payee].text, OrNull(s.fields[Description].text),
          if splitting then None else if picker then OrNull(s.fields[CategoryId].text) else OrNull(initial.categoryId),
          if splitting then None
          else if picker then
            if s.fields[CategoryId].text != "" then None else OrNull(Trim(s.fields[CategoryName].text))
          else if initial.categoryId != "" then None else OrNull(initial.categoryName),
          if splitting then Some(seq(|s.legs|, i requires 0 <= i < |s.legs| => SentLegOf(s.legs[i]))) else None,
          OrNull(s.fields[Notes].text), OrNull(initial.externalId),
          OrNull(if s.selected != "" then s.selected else initial.templateId),
          if kind == "deposit" then None else Some(s.fields[FromAccountId].text),
          if kind == "withdrawal" then None else Some(s.fields[ToAccountId].text),
          s.fields[Amount].text,
          if kind == "transfer" && CrossCurrency(s, lists) then OrNull(s.fields[DestinationAmount].text) else None)
  }

  // ---------------------------------------------------------------------------------------
  // What is typed or picked is what is sent.
  // ---------------------------------------------------------------------------------------

  /** The fields a handler may change. */
  predicate Concerns(e: Event, f: Field) {
    match e
    case Choose(_) => true
    case Write(field, _) => f == field
    case PickType(_) => f.Type? || IsSide(f)
    case PickAccount(side, _) => f == side || f.DestinationAmount?
    case PickCategory(_, _) => f.CategoryId? || f.CategoryName?
    case StartSplit => f.CategoryId? || f.CategoryName?
    case AddLeg => false
    case RemoveLeg(_) => f.CategoryId? || f.CategoryName?
    case EditLeg(_, _) => false
    case StartOver => true
  }

  lemma OthersStay(s: State, e: Event, lists: Lists, f: Field)
    requires Whole(s) && Enabled(s, e) && !Concerns(e, f)
    ensures Handle(s, e, lists).fields[f] == s.fields[f]
  {
    hide DefaultAccount, CompareMoney, LegEdited;
  }

  /** A text is sent as it was typed, a blank description or note as none. */
  predicate SendsText(sent: Draft, f: Field, text: string) {
    match f
    case Date => sent.date == text
    case Payee => sent.payee == text
    case Description => sent.description == if text == "" then None else Some(text)
    case Notes => sent.notes == if text == "" then None else Some(text)
    case Amount => sent.amount == text
    case DestinationAmount => sent.destinationAmount.Some? ==> sent.destinationAmount == Some(text)
    case _ => true
  }

  lemma TextIsSent(s: State, f: Field, text: string, initial: Carried, lists: Lists)
    requires Whole(s) && IsText(f)
    ensures SendsText(Submit(Apply(s, Write(f, text), lists), initial, lists), f, text)
  {
    hide CrossCurrency, SentLegOf, Splitting, Settled;
    EffectsFill(Handle(s, Write(f, text), lists), lists, f);
  }

  /** A template chosen is sent with the entry; otherwise the one it was opened with. */
  lemma TemplateIsSent(s: State, t: Template, initial: Carried, lists: Lists)
    requires Whole(s) && Storable(t)
    ensures Submit(Apply(s, Choose(t), lists), initial, lists).templateId ==
      if t.id != "" then Some(t.id) else if initial.templateId != "" then Some(initial.templateId) else None
  {
    hide CrossCurrency, SentLegOf, Splitting, TakenCategory, TakenAccount, Taken, Settled;
    EffectsFill(Chosen(s, t, lists), lists, Type);
  }

  /** An account picked is sent for its side, unless the type has no such side. */
  lemma AccountIsSent(s: State, side: Field, id: string, initial: Carried, lists: Lists)
    requires Whole(s) && IsSide(side) && id != ""
    ensures var sent := Submit(Apply(s, PickAccount(side, id), lists), initial, lists);
      && sent.kind == s.fields[Type].text
      && (if side.FromAccountId? then sent.fromAccountId == (if sent.kind == "deposit" then None else Some(id))
          else sent.toAccountId == (if sent.kind == "withdrawal" then None else Some(id)))
  {
    hide CrossCurrency, SentLegOf, Splitting, CompareMoney, Settled;
    EffectsFill(Handle(s, PickAccount(side, id), lists), lists, side);
    EffectsFill(Handle(s, PickAccount(side, id), lists), lists, Type);
  }

  /** A category picked is sent by its id, and one only named by its name, the spaces about it cut off. */
  lemma CategoryIsSent(s: State, id: string, name: string, initial: Carried, lists: Lists)
    requires Whole(s) && Enabled(s, PickCategory(id, name))
    ensures var sent := Submit(Apply(s, PickCategory(id, name), lists), initial, lists);
      && sent.legs.None?
      && (id != "" ==> sent.categoryId == Some(id) && sent.categoryName.None?)
      && (id == "" ==> sent.categoryId.None? && sent.categoryName == if Trim(name) == "" then None else Some(Trim(name)))
  {
    hide CrossCurrency, SentLegOf, Trim, Settled;
    var n := Handle(s, PickCategory(id, name), lists);
    EffectsFill(n, lists, CategoryId);
    EffectsFill(n, lists, CategoryName);
    EffectsFill(n, lists, Type);
  }

  /** A transfer sends the category it was opened with, by its id or else its name, whatever the form shows. */
  lemma CarriedIsSent(s: State, initial: Carried, lists: Lists)
    requires Whole(s) && s.fields[Type].text == "transfer"
    ensures var sent := Submit(s, initial, lists);
      && sent.legs.None?
      && (initial.categoryId != "" ==> sent.categoryId == Some(initial.categoryId) && sent.categoryName.None?)
      && (initial.categoryId == "" ==>
            sent.categoryId.None? && sent.categoryName == if initial.categoryName == "" then None else Some(initial.categoryName))
      && sent.externalId == if initial.externalId == "" then None else Some(initial.externalId)
  {
    hide CrossCurrency, SentLegOf;
  }

  /** An edit of one leg is sent for that leg, and every other leg as it was. */
  predicate SendsEdit(sent: SentLeg, edit: LegEdit) {
    match edit
    case LegCategory(id, name) =>
      if id != "" then sent.categoryId == Some(id) && sent.categoryName.None?
      else sent.categoryId.None? && sent.categoryName == (if Trim(name) == "" then None else Some(Trim(name)))
    case LegAmount(text) => sent.amount == text
    case LegNote(text) => sent.note == if Trim(text) == "" then None else Some(Trim(text))
  }

  lemma EditIsSent(s: State, at: nat, edit: LegEdit, initial: Carried, lists: Lists)
    requires Whole(s) && Enabled(s, EditLeg(at, edit)) && |s.legs| >= 2
    ensures var sent := Submit(Apply(s, EditLeg(at, edit), lists), initial, lists);
      && sent.legs.Some? && |sent.legs.value| == |s.legs| && SendsEdit(sent.legs.value[at], edit)
      && sent.categoryId.None? && sent.categoryName.None?
      && (forall i :: 0 <= i < |s.legs| && i != at ==> sent.legs.value[i] == SentLegOf(s.legs[i]))
      && (edit.LegCategory? || (sent.legs.value[at].categoryId == SentLegOf(s.legs[at]).categoryId
                                && sent.legs.value[at].categoryName == SentLegOf(s.legs[at]).categoryName))
      && (edit.LegAmount? || sent.legs.value[at].amount == s.legs[at].amount.text)
  {
    hide CrossCurrency, Trim, Settled;
    EffectsFill(Handle(s, EditLeg(at, edit), lists), lists, Type);
  }

  /** A type picked is sent; on a new entry its sides go to the accounts they start on, on a stored one
      they stay. */
  lemma TypeIsSent(s: State, next: string, initial: Carried, lists: Lists, side: Field)
    requires Whole(s) && IsSide(side)
    ensures var n := Handle(s, PickType(next), lists);
      && Submit(Apply(s, PickType(next), lists), initial, lists).kind == next
      && (if s.setup.editing || (side.FromAccountId? && next == "deposit") || (side.ToAccountId? && next == "withdrawal")
          then n.fields[side] == s.fields[side]
          else UsualSide(s.setup, lists, next, side, n.fields[side].text))
  {
    hide CrossCurrency, SentLegOf, Splitting, Settled, UsualSide, DefaultAccount;
    EffectsFill(Handle(s, PickType(next), lists), lists, Type);
    DefaultAccountIs(s.setup, lists, next, side);
  }

  /** Starting over leaves nothing of what was there before, and every field as a new entry opens. */
  lemma StartOverLeaves(s: State, was: State, lists: Lists)
    requires Whole(s) && Whole(was) && was.setup == s.setup && Enabled(s, StartOver)
    ensures Handle(was, StartOver, lists) == Handle(s, StartOver, lists)
    ensures var n := Handle(s, StartOver, lists);
      && n.fields[Type].text == s.setup.createType && n.fields[Date].text == lists.today
      && n.fields[Payee].text == s.setup.initialPayee && n.fields[Description].text == "" && n.fields[Notes].text == ""
      && n.fields[Amount].text == "" && n.fields[DestinationAmount].text == ""
      && n.fields[CategoryId].text == s.setup.initialCategoryId
      && n.fields[CategoryName].text ==
           (if s.setup.initialCategoryId in lists.categories then lists.categories[s.setup.initialCategoryId] else "")
      && UsualSide(s.setup, lists, s.setup.createType, FromAccountId, n.fields[FromAccountId].text)
      && UsualSide(s.setup, lists, s.setup.createType, ToAccountId, n.fields[ToAccountId].text)
      && n.legs == [] && n.selected == "" && n.applied == {} && !n.appliedLegs
  {
    hide UsualSide, DefaultAccount;
    DefaultAccountIs(s.setup, lists, s.setup.createType, FromAccountId);
    DefaultAccountIs(s.setup, lists, s.setup.createType, ToAccountId);
    ResetAlone(s, was, lists);
  }

  lemma ResetAlone(s: State, was: State, lists: Lists)
    requires Whole(s) && Whole(was) && was.setup == s.setup
    ensures Reset(was, lists) == Reset(s, lists)
  {
    hide DefaultAccount;
    assert Reset(was, lists).fields == Reset(s, lists).fields;
  }

  /** A blank leg counts as nothing. */
  function SentAmounts(legs: seq<SentLeg>): seq<string> {
    seq(|legs|, i requires 0 <= i < |legs| => if legs[i].amount == "" then "0" else legs[i].amount)
  }

  /** Whatever the form lets through as a split is one: two legs or more that come to the amount
      exactly, in any order, and no single category beside them; anything else sends no legs. */
  lemma SavedSplitSums(setup: Setup, legs: seq<Leg>, lists: Lists, steps: seq<Step>, s: State, initial: Carried,
                       reordered: seq<string>)
    requires Opens(setup, legs) && Run(Start(setup, legs, lists), steps, s)
    requires Whole(s) && CanSave(s)
    requires Submit(s, initial, lists).legs.Some?
             ==> multiset(reordered) == multiset(SentAmounts(Submit(s, initial, lists).legs.value))
    ensures var sent := Submit(s, initial, lists);
      && (sent.legs.Some? ==>
            && 2 <= |sent.legs.value| <= MAX_TRANSACTION_LEGS && sent.categoryId.None? && sent.categoryName.None?
            && sent.kind != "transfer" && MoneyUnits(sent.amount).Some?
            && Total(reordered) == MoneyUnits(sent.amount).value)
      && (sent.legs.None? <==> sent.kind == "transfer" || s.legs == [])
  {
    hide MoneyUnits, MoneyFromUnits, Total, Apply, IsZeroMoney;
    LegCount(setup, legs, lists, steps, s);
    var sent := Submit(s, initial, lists);
    if sent.legs.Some? {
      assert SentAmounts(sent.legs.value) == LegAmounts(s.legs);
      assert ShownRemainder(s).Some? by { NothingIsNotZero(); }
      RemainderConserves(s.fields[Amount].text, LegAmounts(s.legs), reordered);
      TotalOrderFree(LegAmounts(s.legs), reordered);
    }
  }

  lemma NothingIsNotZero()
    ensures !IsZeroMoney(None)
  {
  }
}
