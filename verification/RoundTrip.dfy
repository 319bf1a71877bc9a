/** Opening a stored transaction in the form and saving it unchanged (src/client/forms.tsx,
    src/client/staged-draft.ts): stored row to draft, draft to form, form to request. */
module RoundTrip {
  import opened Options
  import opened Decimals
  import opened Money
  import opened Rounding
  import opened DateRange
  import opened TransactionForm

  datatype StoredLeg = StoredLeg(id: string, categoryId: Option<string>, amount: string, note: Option<string>)

  datatype Transaction = Transaction(
    kind: string, date: string, payee: string, description: Option<string>, categoryId: Option<string>,
    legs: seq<StoredLeg>, notes: Option<string>, externalId: Option<string>, templateId: Option<string>,
    sourceAccountId: Option<string>, destinationAccountId: Option<string>,
    sourceAmount: Option<string>, destinationAmount: Option<string>,
    sourceCurrency: Option<string>, destinationCurrency: Option<string>)

  /** How many digits after the point each currency is written with; none for any other. */
  type Places = map<string, nat>

  // ---------------------------------------------------------------------------------------
  // Stored row to draft.
  // ---------------------------------------------------------------------------------------

  function OrEmpty(value: Option<string>): string {
    if value.Some? then value.value else ""
  }

  function PlacesOf(places: Places, currency: Option<string>): nat {
    if currency.Some? && currency.value in places then places[currency.value] else 0
  }

  function InputAmount(amount: Option<string>, currency: Option<string>, places: Places): string {
    AmountForInput(OrEmpty(amount), PlacesOf(places, currency))
  }

  datatype DraftLeg = DraftLeg(id: string, categoryId: Option<string>, amount: string, note: Option<string>)

  /** A draft of one of the three kinds, only the fields of its kind present. */
  datatype TransactionDraft = TransactionDraft(
    kind: string, date: string, payee: string, description: Option<string>, categoryId: Option<string>,
    legs: Option<seq<DraftLeg>>, notes: Option<string>, externalId: Option<string>,
    fromAccountId: Option<string>, toAccountId: Option<string>, amount: Option<string>,
    sourceAmount: Option<string>, destinationAmount: Option<string>)

  function LegFromTransaction(leg: StoredLeg, currency: Option<string>, places: Places): DraftLeg {
    DraftLeg(leg.id, leg.categoryId, InputAmount(Some(leg.amount), currency, places), leg.note)
  }

  function DraftFromTransaction(t: Transaction, places: Places): TransactionDraft {
    var legCurrency := if t.kind == "deposit" then t.destinationCurrency else t.sourceCurrency;
    var legs := seq(|t.legs|, i requires 0 <= i < |t.legs| => LegFromTransaction(t.legs[i], legCurrency, places));
    var common := TransactionDraft(t.kind, t.date, t.payee, t.description, t.categoryId,
                                   if t.legs == [] then None else Some(legs), t.notes, t.externalId,
                                   None, None, None, None, None);
    if t.kind == "deposit" then
      common.(toAccountId := t.destinationAccountId,
              amount := Some(InputAmount(t.destinationAmount, t.destinationCurrency, places)))
    else if t.kind == "withdrawal" then
      common.(fromAccountId := t.sourceAccountId,
              amount := Some(InputAmount(t.sourceAmount, t.sourceCurrency, places)))
    else
      common.(fromAccountId := t.sourceAccountId, toAccountId := t.destinationAccountId,
              sourceAmount := Some(InputAmount(t.sourceAmount, t.sourceCurrency, places)),
              destinationAmount := Some(InputAmount(t.destinationAmount, t.destinationCurrency, places)))
  }

  // ---------------------------------------------------------------------------------------
  // Draft to form.
  // ---------------------------------------------------------------------------------------

  datatype FormLeg = FormLeg(id: string, categoryId: string, categoryName: string, amount: string, note: string)

  datatype FormDraft = FormDraft(
    kind: string, date: string, description: string, payee: string, categoryId: string, categoryName: string,
    legs: seq<FormLeg>, notes: string, fromAccountId: string, toAccountId: string,
    amount: string, destinationAmount: string, externalId: string, templateId: string)

  /** A date the form can show: a real day of the years 0001 to 9999, written out. */
  ghost predicate IsIsoDate(text: string) {
    exists c :: IsDay(c) && 1 <= c.year <= 9999 && text == Iso(c)
  }

  function StagedLeg(leg: DraftLeg): FormLeg {
    FormLeg(leg.id, OrEmpty(leg.categoryId), "", leg.amount, OrEmpty(leg.note))
  }

  function StagedLegs(legs: Option<seq<DraftLeg>>): seq<FormLeg> {
    if legs.None? then []
    else seq(|legs.value|, i requires 0 <= i < |legs.value| => StagedLeg(legs.value[i]))
  }

  /** A draft made from a stored row names no category, no kind and no template of its own. */
  ghost function DraftForTransactionForm(d: TransactionDraft): FormDraft {
    var kind := if d.kind in {"deposit", "withdrawal", "transfer"} then d.kind else "withdrawal";
    FormDraft(kind, if IsIsoDate(d.date) then d.date else "", OrEmpty(d.description), d.payee, OrEmpty(d.categoryId), "",
              StagedLegs(d.legs), OrEmpty(d.notes), OrEmpty(d.fromAccountId), OrEmpty(d.toAccountId),
              OrEmpty(if kind == "transfer" then d.sourceAmount else d.amount),
              if kind == "transfer" then OrEmpty(d.destinationAmount) else "", OrEmpty(d.externalId), "")
  }

  function NameOf(lists: Lists, id: string): string {
    if id in lists.categories then lists.categories[id] else ""
  }

  function OpenedLeg(leg: FormLeg, lists: Lists): Leg {
    var name := if leg.categoryName != "" then leg.categoryName else NameOf(lists, leg.categoryId);
    Leg(leg.id, Value(leg.categoryId, Opened), Value(name, Opened), Value(leg.amount, Opened), Value(leg.note, Opened))
  }

  function OpenedText(d: FormDraft, lists: Lists, f: Field): string {
    var fallback := Setup(map[], d.kind, None, "", "", true);
    match f
    case Type => d.kind
    case Date => d.date
    case Payee => d.payee
    case Description => d.description
    case Notes => d.notes
    case Amount => d.amount
    case DestinationAmount => d.destinationAmount
    case FromAccountId => if d.fromAccountId != "" then d.fromAccountId else DefaultAccount(fallback, lists, d.kind, f)
    case ToAccountId => if d.toAccountId != "" then d.toAccountId else DefaultAccount(fallback, lists, d.kind, f)
    case CategoryId => d.categoryId
    case CategoryName => if d.categoryId in lists.categories then lists.categories[d.categoryId] else d.categoryName
  }

  /** The values the form opens with. */
  function SetupOf(d: FormDraft, lists: Lists): (setup: Setup)
    ensures forall f: Field :: f in setup.base && setup.base[f] == OpenedText(d, lists, f)
  {
    Setup(map f: Field | true :: OpenedText(d, lists, f), d.kind, None, "", "", true)
  }

  function OpenedLegs(d: FormDraft, lists: Lists): seq<Leg> {
    seq(|d.legs|, i requires 0 <= i < |d.legs| => OpenedLeg(d.legs[i], lists))
  }

  function OpenForm(d: FormDraft, lists: Lists): (s: State)
    ensures Whole(s)
  {
    Start(SetupOf(d, lists), OpenedLegs(d, lists), lists)
  }

  ghost function SaveUnchanged(t: Transaction, places: Places, lists: Lists): Draft {
    var d := DraftForTransactionForm(DraftFromTransaction(t, places));
    Submit(OpenForm(d, lists), Carried(d.categoryId, d.categoryName, d.externalId, d.templateId), lists)
  }

  // ---------------------------------------------------------------------------------------
  // What the ledger stores, and what comes back of it.
  // ---------------------------------------------------------------------------------------

  predicate StoredText(text: Option<string>) {
    text.Some? ==> text.value != ""
  }

  /** An amount as the ledger keeps it: a decimal of at most eighteen places. */
  predicate StoredAmount(amount: Option<string>) {
    amount.Some? && ReadDecimal(amount.value).Some? && |ReadDecimal(amount.value).value.fraction| <= SCALE
  }

  predicate StoredSide(account: Option<string>, amount: Option<string>) {
    account.Some? && account.value != "" && StoredAmount(amount)
  }

  ghost predicate Stored(t: Transaction) {
    && IsIsoDate(t.date) && StoredText(t.description) && StoredText(t.notes)
    && StoredText(t.externalId) && StoredText(t.categoryId) && StoredText(t.templateId)
    && (t.kind == "deposit" || t.kind == "withdrawal" || t.kind == "transfer")
    && (t.kind != "deposit" ==> StoredSide(t.sourceAccountId, t.sourceAmount))
    && (t.kind != "withdrawal" ==> StoredSide(t.destinationAccountId, t.destinationAmount))
    && (t.legs == [] || (2 <= |t.legs| <= MAX_TRANSACTION_LEGS && t.kind != "transfer" && t.categoryId.None?))
    && (forall leg :: leg in t.legs ==>
          && leg.id != "" && StoredText(leg.categoryId) && StoredAmount(Some(leg.amount))
          && StoredText(leg.note) && Trim(OrEmpty(leg.note)) == OrEmpty(leg.note))
  }

  predicate SmallPlaces(places: Places) {
    forall c :: c in places ==> places[c] <= SCALE
  }

  /** The currencies the account list gives the two sides, when it has both and they differ. */
  predicate ListedApart(t: Transaction, lists: Lists) {
    var source := CurrencyOf(lists.accounts, OrEmpty(t.sourceAccountId));
    var destination := CurrencyOf(lists.accounts, OrEmpty(t.destinationAccountId));
    source.Some? && destination.Some? && source != destination
  }

  lemma AmountComesBack(amount: Option<string>, currency: Option<string>, places: Places)
    requires StoredAmount(amount) && SmallPlaces(places)
    ensures InputAmount(amount, currency, places) != ""
    ensures MoneyUnits(amount.value).Some? && MoneyUnits(InputAmount(amount, currency, places)) == MoneyUnits(amount.value)
  {
    var p := ReadDecimal(amount.value).value;
    ReadingIsText(amount.value);
    InputKeepsUnits(p, PlacesOf(places, currency));
    BlankUnreadable();
    hide ReadDecimal, Text, UnitsOf, MoneyUnits, AmountForInput;
  }

  /** What the draft holds of the stored row, as the form reads it. */
  lemma DraftOf(t: Transaction, places: Places)
    requires Stored(t)
    ensures var d := DraftForTransactionForm(DraftFromTransaction(t, places));
      && d.kind == t.kind && d.date == t.date && d.payee == t.payee && d.description == OrEmpty(t.description)
      && d.notes == OrEmpty(t.notes) && d.externalId == OrEmpty(t.externalId) && d.templateId == ""
      && d.categoryId == OrEmpty(t.categoryId) && d.categoryName == ""
      && (t.kind != "deposit" ==> Some(d.fromAccountId) == t.sourceAccountId && d.fromAccountId != "")
      && (t.kind != "withdrawal" ==> Some(d.toAccountId) == t.destinationAccountId && d.toAccountId != "")
      && |d.legs| == |t.legs|
  {
    hide IsIsoDate, AmountForInput, StoredAmount, Trim;
  }

  lemma DraftAmounts(t: Transaction, places: Places)
    requires Stored(t)
    ensures var d := DraftForTransactionForm(DraftFromTransaction(t, places));
      && (t.kind == "deposit" ==> d.amount == InputAmount(t.destinationAmount, t.destinationCurrency, places))
      && (t.kind != "deposit" ==> d.amount == InputAmount(t.sourceAmount, t.sourceCurrency, places))
      && (t.kind == "transfer" ==> d.destinationAmount == InputAmount(t.destinationAmount, t.destinationCurrency, places))
  {
    hide IsIsoDate, InputAmount, StoredAmount, Trim;
  }

  /** What the form holds of the draft it opened with, as its save reads it. */
  lemma OpenedFields(d: FormDraft, lists: Lists)
    ensures var s := OpenForm(d, lists);
      && s.legs == OpenedLegs(d, lists) && s.selected == ""
      && (forall f: Field :: IsScalar(f) ==> s.fields[f].text == OpenedText(d, lists, f))
      && (d.fromAccountId != "" ==> s.fields[FromAccountId].text == d.fromAccountId)
      && (d.toAccountId != "" ==> s.fields[ToAccountId].text == d.toAccountId)
      && (d.kind != "transfer" ==>
            && s.fields[CategoryId].text == d.categoryId
            && s.fields[CategoryName].text == OpenedText(d, lists, CategoryName))
  {
    hide FirstWritable, DefaultAccount;
    SettledSame(Mounted(SetupOf(d, lists), OpenedLegs(d, lists)), lists);
  }

  /** An amount opens with its currency's digits at least, and past them no zero at the end. */
  lemma AmountOpens(amount: Option<string>, currency: Option<string>, places: Places)
    requires StoredAmount(amount)
    ensures var text := ReadDecimal(InputAmount(amount, currency, places));
      var digits := if currency.Some? && currency.value in places then places[currency.value] else 0;
      && text.Some? && |text.value.fraction| >= digits
      && (|text.value.fraction| > digits ==> text.value.fraction[|text.value.fraction| - 1] != '0')
  {
    hide ReadDecimal, InputSpelled, AmountForInput, SameValue, Text;
    ReadingIsText(amount.value);
    InputKeepsValue(ReadDecimal(amount.value).value, PlacesOf(places, currency));
    InputLeavesOthers(amount.value, PlacesOf(places, currency));
  }

  function Listed(lists: Lists, id: Option<string>): string {
    if id.Some? && id.value in lists.categories then lists.categories[id.value] else ""
  }

  /** The form opens on the names the list gives the stored categories, its own and its legs'. */
  lemma NamesOpen(t: Transaction, places: Places, lists: Lists)
    requires Stored(t) && "" !in lists.categories
    ensures var s := OpenForm(DraftForTransactionForm(DraftFromTransaction(t, places)), lists);
      && (t.kind != "transfer" ==>
            s.fields[CategoryId].text == OrEmpty(t.categoryId) && s.fields[CategoryName].text == Listed(lists, t.categoryId))
      && |s.legs| == |t.legs|
      && forall i :: 0 <= i < |t.legs| ==>
           && s.legs[i].categoryId.text == OrEmpty(t.legs[i].categoryId)
           && s.legs[i].categoryName.text == Listed(lists, t.legs[i].categoryId)
           && s.legs[i].note.text == OrEmpty(t.legs[i].note)
  {
    hide IsIsoDate, OpenForm, CurrencyOf, Trim, StoredAmount, DefaultAccount, InputAmount;
    DraftOf(t, places);
    OpenedFields(DraftForTransactionForm(DraftFromTransaction(t, places)), lists);
  }

  /** Everything but the amounts comes back as it was stored, the category of a transfer included. */
  lemma ShapeComesBack(t: Transaction, places: Places, lists: Lists)
    requires Stored(t) && "" !in lists.categories
    ensures var sent := SaveUnchanged(t, places, lists);
      && sent.kind == t.kind && sent.date == t.date && sent.payee == t.payee
      && sent.description == t.description && sent.notes == t.notes && sent.externalId == t.externalId
      && sent.categoryId == t.categoryId && sent.categoryName.None?
      && sent.fromAccountId == (if t.kind == "deposit" then None else t.sourceAccountId)
      && sent.toAccountId == (if t.kind == "withdrawal" then None else t.destinationAccountId)
  {
    hide IsIsoDate, OpenForm, CurrencyOf, Trim, StoredAmount, DraftForTransactionForm, DraftFromTransaction, DefaultAccount;
    DraftOf(t, places);
    OpenedFields(DraftForTransactionForm(DraftFromTransaction(t, places)), lists);
    BlankTrims(t);
  }

  /** Nothing trimmed is nothing; and only an entry that is not a transfer is split, into two or more. */
  lemma BlankTrims(t: Transaction)
    ensures Trim("") == "" && (Stored(t) ==> t.legs == [] || (|t.legs| >= 2 && t.kind != "transfer"))
  {
    hide IsIsoDate, StoredAmount;
  }

  /** A leg is sent under the id, category and note it was stored with, its amount the same money. */
  lemma LegComesBack(leg: StoredLeg, currency: Option<string>, places: Places, lists: Lists)
    requires leg.id != "" && StoredText(leg.categoryId) && StoredAmount(Some(leg.amount)) && StoredText(leg.note)
    requires Trim(OrEmpty(leg.note)) == OrEmpty(leg.note) && SmallPlaces(places) && "" !in lists.categories
    ensures var sent := SentLegOf(OpenedLeg(StagedLeg(LegFromTransaction(leg, currency, places)), lists));
      && sent.id == Some(leg.id) && sent.categoryId == leg.categoryId && sent.categoryName.None?
      && sent.note == leg.note && MoneyUnits(sent.amount) == MoneyUnits(leg.amount) && MoneyUnits(leg.amount).Some?
  {
    hide MoneyUnits, InputAmount;
    AmountComesBack(Some(leg.amount), currency, places);
    assert Trim("") == "";
  }

  /** A split is sent as the same legs in the same order; what was not a split is not sent as one. */
  lemma LegsComeBack(t: Transaction, places: Places, lists: Lists)
    requires Stored(t) && SmallPlaces(places) && "" !in lists.categories
    ensures var sent := SaveUnchanged(t, places, lists).legs;
      && (sent.None? <==> t.legs == [])
      && (sent.Some? ==> |sent.value| == |t.legs| && forall i :: 0 <= i < |t.legs| ==>
            && sent.value[i].id == Some(t.legs[i].id) && sent.value[i].categoryId == t.legs[i].categoryId
            && sent.value[i].categoryName.None? && sent.value[i].note == t.legs[i].note
            && MoneyUnits(t.legs[i].amount).Some? && MoneyUnits(sent.value[i].amount) == MoneyUnits(t.legs[i].amount))
  {
    hide IsIsoDate, AmountForInput, FirstWritable, DefaultAccount, OpenForm, CurrencyOf, MoneyUnits, SentLegOf,
         StagedLeg, LegFromTransaction, StoredAmount, InputAmount, Trim;
    var d := DraftForTransactionForm(DraftFromTransaction(t, places));
    OpenedFields(d, lists);
    var currency := if t.kind == "deposit" then t.destinationCurrency else t.sourceCurrency;
    forall i | 0 <= i < |t.legs|
      ensures |OpenedLegs(d, lists)| == |t.legs|
      ensures OpenedLegs(d, lists)[i] == OpenedLeg(StagedLeg(LegFromTransaction(t.legs[i], currency, places)), lists)
    {
      assert t.legs[i] in t.legs;
      LegComesBack(t.legs[i], currency, places, lists);
    }
    forall i | 0 <= i < |t.legs|
      ensures var sent := SentLegOf(OpenedLeg(StagedLeg(LegFromTransaction(t.legs[i], currency, places)), lists));
        && sent.id == Some(t.legs[i].id) && sent.categoryId == t.legs[i].categoryId && sent.categoryName.None?
        && sent.note == t.legs[i].note && MoneyUnits(sent.amount) == MoneyUnits(t.legs[i].amount)
        && MoneyUnits(t.legs[i].amount).Some?
    {
      assert t.legs[i] in t.legs;
      LegComesBack(t.legs[i], currency, places, lists);
    }
  }

  /** The amounts sent are the amounts stored. Of a transfer the received amount is sent exactly when
      the account list has both accounts and gives them different currencies. */
  lemma AmountsComeBack(t: Transaction, places: Places, lists: Lists)
    requires Stored(t) && SmallPlaces(places)
    ensures var sent := SaveUnchanged(t, places, lists);
      && MoneyUnits(sent.amount).Some?
      && MoneyUnits(sent.amount) == MoneyUnits(OrEmpty(if t.kind == "deposit" then t.destinationAmount else t.sourceAmount))
      && (sent.destinationAmount.Some? <==> t.kind == "transfer" && ListedApart(t, lists))
      && (sent.destinationAmount.Some? ==>
            MoneyUnits(sent.destinationAmount.value) == MoneyUnits(OrEmpty(t.destinationAmount)))
  {
    hide IsIsoDate, InputAmount, DefaultAccount, OpenForm, CurrencyOf, MoneyUnits, SentLegOf, StagedLegs, Trim,
         DraftForTransactionForm, DraftFromTransaction;
    DraftOf(t, places);
    DraftAmounts(t, places);
    OpenedFields(DraftForTransactionForm(DraftFromTransaction(t, places)), lists);
    if t.kind != "withdrawal" { AmountComesBack(t.destinationAmount, t.destinationCurrency, places); }
    if t.kind != "deposit" { AmountComesBack(t.sourceAmount, t.sourceCurrency, places); }
  }

  /** A stored transfer between accounts of one currency balances. */
  predicate Balanced(t: Transaction) {
    t.kind == "transfer" && t.sourceCurrency == t.destinationCurrency ==>
      MoneyUnits(OrEmpty(t.sourceAmount)) == MoneyUnits(OrEmpty(t.destinationAmount))
  }

  /** The received amount the server makes of a transfer between accounts of these currencies: the one
      sent, or the sent amount where one currency needs no other; `None` is a refusal. */
  function ReceivedAmount(t: Transaction, sent: Draft): Option<string> {
    if t.sourceCurrency != t.destinationCurrency then sent.destinationAmount
    else if sent.destinationAmount.None? then Some(sent.amount)
    else if MoneyUnits(sent.destinationAmount.value) != MoneyUnits(sent.amount) then None
    else sent.destinationAmount
  }

  /** It refuses exactly a missing amount between two currencies, and a different one within one. */
  lemma ReceivedRefused(t: Transaction, sent: Draft)
    ensures ReceivedAmount(t, sent).None? <==>
      if t.sourceCurrency == t.destinationCurrency
      then sent.destinationAmount.Some? && MoneyUnits(sent.destinationAmount.value) != MoneyUnits(sent.amount)
      else sent.destinationAmount.None?
    ensures ReceivedAmount(t, sent).Some? ==>
      ReceivedAmount(t, sent).value == if sent.destinationAmount.Some? then sent.destinationAmount.value else sent.amount
  {
    hide MoneyUnits;
  }

  /** A transfer saved unchanged is stored with both its amounts, the received one left out between
      accounts of one currency included; or, of two currencies and not both in the list, it is refused. */
  lemma TransferComesBack(t: Transaction, places: Places, lists: Lists)
    requires Stored(t) && SmallPlaces(places) && Balanced(t) && t.kind == "transfer"
    ensures var sent := SaveUnchanged(t, places, lists);
      && MoneyUnits(sent.amount) == MoneyUnits(OrEmpty(t.sourceAmount))
      && (ReceivedAmount(t, sent).None? <==> t.sourceCurrency != t.destinationCurrency && !ListedApart(t, lists))
      && (ReceivedAmount(t, sent).Some? ==>
            MoneyUnits(ReceivedAmount(t, sent).value) == MoneyUnits(OrEmpty(t.destinationAmount)))
  {
    hide Stored, SaveUnchanged, MoneyUnits, ListedApart;
    AmountsComeBack(t, places, lists);
  }

  /** The template an entry was made from is not among what comes back: it is kept exactly when
      there was none. */
  lemma TemplateIsDropped(t: Transaction, places: Places, lists: Lists)
    requires Stored(t)
    ensures SaveUnchanged(t, places, lists).templateId.None?
    ensures SaveUnchanged(t, places, lists).templateId == t.templateId <==> t.templateId.None?
  {
    hide IsIsoDate, InputAmount, FirstWritable, DefaultAccount, OpenForm, CurrencyOf, SentLegOf, StagedLegs, Splitting,
         DraftForTransactionForm, DraftFromTransaction;
    DraftOf(t, places);
    OpenedFields(DraftForTransactionForm(DraftFromTransaction(t, places)), lists);
  }

  function StoredAmounts(legs: seq<StoredLeg>): seq<string> {
    seq(|legs|, i requires 0 <= i < |legs| => legs[i].amount)
  }

  /** Amounts that read alike one by one come to the same total. */
  lemma {:induction false} TotalsAlike(a: seq<string>, b: seq<string>)
    requires |a| == |b| && forall i :: 0 <= i < |a| ==> MoneyUnits(a[i]) == MoneyUnits(b[i])
    ensures Total(a) == Total(b) && (Readable(a) <==> Readable(b))
  {
    hide MoneyUnits;
    if a != [] { TotalsAlike(a[..|a| - 1], b[..|b| - 1]); }
  }

  lemma OpenedAmount(t: Transaction, places: Places, lists: Lists, i: nat)
    requires Stored(t) && SmallPlaces(places) && i < |t.legs|
    ensures var s := OpenForm(DraftForTransactionForm(DraftFromTransaction(t, places)), lists);
      |s.legs| == |t.legs| && MoneyUnits(LegAmounts(s.legs)[i]) == MoneyUnits(t.legs[i].amount)
      && MoneyUnits(t.legs[i].amount).Some?
  {
    hide IsIsoDate, DefaultAccount, OpenForm, CurrencyOf, MoneyUnits, StoredAmount, InputAmount, Trim;
    OpenedFields(DraftForTransactionForm(DraftFromTransaction(t, places)), lists);
    assert t.legs[i] in t.legs;
    AmountComesBack(Some(t.legs[i].amount), if t.kind == "deposit" then t.destinationCurrency else t.sourceCurrency, places);
  }

  /** The form a stored split opens lets it be saved exactly when the stored legs come to the stored
      amount; anything else stored can always be saved. */
  lemma UnchangedCanBeSaved(t: Transaction, places: Places, lists: Lists)
    requires Stored(t) && SmallPlaces(places)
    ensures var whole := OrEmpty(if t.kind == "deposit" then t.destinationAmount else t.sourceAmount);
      && MoneyUnits(whole).Some?
      && (CanSave(OpenForm(DraftForTransactionForm(DraftFromTransaction(t, places)), lists))
          <==> t.legs == [] || Total(StoredAmounts(t.legs)) == MoneyUnits(whole).value)
  {
    hide IsIsoDate, DefaultAccount, OpenForm, MoneyUnits, MoneyFromUnits, IsZeroMoney, Total, InputAmount, Trim,
         DraftForTransactionForm, DraftFromTransaction, StoredAmount, Stored;
    var d := DraftForTransactionForm(DraftFromTransaction(t, places));
    var s := OpenForm(d, lists);
    OpenedFields(d, lists);
    DraftOf(t, places);
    WholeComesBack(t, places);
    BlankTrims(t);
    forall i | 0 <= i < |t.legs|
      ensures MoneyUnits(LegAmounts(s.legs)[i]) == MoneyUnits(t.legs[i].amount) && MoneyUnits(t.legs[i].amount).Some?
    {
      OpenedAmount(t, places, lists, i);
    }
    TotalsAlike(LegAmounts(s.legs), StoredAmounts(t.legs));
    if t.legs != [] { RemainderConserves(s.fields[Amount].text, LegAmounts(s.legs), LegAmounts(s.legs)); }
  }

  lemma WholeComesBack(t: Transaction, places: Places)
    requires Stored(t) && SmallPlaces(places)
    ensures var whole := OrEmpty(if t.kind == "deposit" then t.destinationAmount else t.sourceAmount);
      MoneyUnits(whole).Some? && MoneyUnits(DraftForTransactionForm(DraftFromTransaction(t, places)).amount) == MoneyUnits(whole)
  {
    hide IsIsoDate, MoneyUnits, InputAmount, Trim, DraftForTransactionForm, DraftFromTransaction;
    DraftAmounts(t, places);
    if t.kind == "deposit" { AmountComesBack(t.destinationAmount, t.destinationCurrency, places); }
    else { AmountComesBack(t.sourceAmount, t.sourceCurrency, places); }
  }
}
