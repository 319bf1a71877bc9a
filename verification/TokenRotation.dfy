/** Refresh-token rotation (src/server/api.ts and src/server/services/connected-apps.ts): many
    requests racing over one table of tokens, where the delete of the presented token decides
    which of them stands. */
module TokenRotation {
  import opened Options

  /** Refresh tokens are numbered in the order they are minted; a new one is never an old one. */
  type Token = nat

  /** What a row of the token table says about who its token was issued to. */
  datatype Row = Row(client: string, person: Option<string>)

  type Table = map<Token, Row>

  // ---------------------------------------------------------------------------------------
  // The retire step on its own: three statements on the table, run by one caller.
  // ---------------------------------------------------------------------------------------

  /** `delete ... where refresh_token = token and client and person match`. */
  function Without(rows: Table, token: Token, owner: Row): Table {
    if token in rows && rows[token] == owner then rows - {token} else rows
  }

  predicate Stands(rows: Table, presented: Token, replacement: Token) {
    || presented == replacement
    || (&& replacement in rows && rows[replacement].person.Some?
        && presented in rows && rows[presented] == rows[replacement])
  }

  /** The table after the whole step, when nothing comes between its statements. */
  function Retired(rows: Table, presented: Token, replacement: Token): Table {
    if presented == replacement || replacement !in rows || rows[replacement].person.None? then rows
    else if Stands(rows, presented, replacement) then rows - {presented}
    else rows - {replacement}
  }

  class TokenStore {
    var rows: Table

    constructor (rows: Table)
      ensures this.rows == rows
    {
      this.rows := rows;
    }

    method Select(token: Token) returns (found: Option<Row>)
      ensures found == if token in rows then Some(rows[token]) else None
    {
      found := if token in rows then Some(rows[token]) else None;
    }

    method Delete(token: Token, owner: Row) returns (count: nat)
      modifies this
      ensures rows == Without(old(rows), token, owner)
      ensures count == if token in old(rows) && old(rows)[token] == owner then 1 else 0
    {
      count := 0;
      if token in rows && rows[token] == owner {
        rows := rows - {token};
        count := 1;
      }
    }

    method RetireRefreshToken(presented: Token, replacement: Token) returns (stands: bool)
      modifies this
      ensures stands == Stands(old(rows), presented, replacement)
      ensures rows == Retired(old(rows), presented, replacement)
    {
      if presented == replacement { return true; }
      var issued := Select(replacement);
      if issued.None? || issued.value.person.None? { return false; }
      var retired := Delete(presented, issued.value);
      if retired > 0 { return true; }
      var _ := Delete(replacement, issued.value);
      return false;
    }
  }

  /** Exactly one of the two tokens survives a retire step that found both rows of one grant;
      no other token is ever touched. */
  lemma RetireLeavesOne(rows: Table, presented: Token, replacement: Token)
    requires presented != replacement && replacement in rows && rows[replacement].person.Some?
    ensures var after := Retired(rows, presented, replacement);
      && (replacement in after <==> Stands(rows, presented, replacement))
      && (presented in after <==> presented in rows && rows[presented] != rows[replacement])
      && forall t :: t != presented && t != replacement ==> (t in after <==> t in rows)
  {
  }

  // ---------------------------------------------------------------------------------------
  // The race: requests as steps over the shared table.
  // ---------------------------------------------------------------------------------------

  /** One interactive sign-in of a client, and everything rotated out of it since. */
  datatype Chain = Chain(owner: Row, head: Token, revoked: bool)

  /** Which chain a token belongs to, and which request minted it (the first of a chain: none). */
  datatype Mint = Mint(chain: nat, request: Option<nat>)

  datatype Phase =
    | Presented
    | Reading(owner: Row)
    | Minted(replacement: Token)
    | Selected(replacement: Token, owner: Row)
    | Lost(replacement: Token, owner: Row)
    | Won(replacement: Token)
    | Replied(replacement: Token)
    | Refused
    | Failed(left: Option<Token>, won: bool)

  datatype Request = Request(presented: Token, phase: Phase)

  /** The table, and a history of it: what was minted, which token stands for each chain, which
      tokens were ever the standing one, and which a client was ever sent. */
  datatype State = State(rows: Table, minted: seq<Mint>, chains: seq<Chain>,
                         confirmed: set<Token>, delivered: set<Token>, requests: seq<Request>)

  datatype Event =
    | Grant(client: string, person: string, arrives: bool)
    | Present(token: Token)
    | Read(r: nat, refuse: bool)
    | MintNew(r: nat, same: bool)
    | Select(r: nat)
    | Delete(r: nat)
    | CleanUp(r: nat)
    | Reply(r: nat, arrives: bool)
    | Fail(r: nat)
    | Revoke(client: string, person: string)

  const EMPTY := State(map[], [], [], {}, {}, [])

  /** Clients present tokens they were sent, old or new, as often as they like. */
  predicate Enabled(s: State, e: Event) {
    match e
    case Grant(_, _, _) => true
    case Revoke(_, _) => true
    case Present(token) => token in s.delivered
    case Read(r, _) => r < |s.requests| && s.requests[r].phase.Presented?
    case MintNew(r, _) => r < |s.requests| && s.requests[r].phase.Reading? && s.requests[r].presented < |s.minted|
    case Select(r) => r < |s.requests| && s.requests[r].phase.Minted?
    case Delete(r) => r < |s.requests| && s.requests[r].phase.Selected? && s.requests[r].presented < |s.minted|
                      && s.minted[s.requests[r].presented].chain < |s.chains|
    case CleanUp(r) => r < |s.requests| && s.requests[r].phase.Lost?
    case Reply(r, _) => r < |s.requests| && s.requests[r].phase.Won?
    case Fail(r) => r < |s.requests| && Running(s.requests[r].phase)
  }

  predicate Running(p: Phase) {
    p.Presented? || p.Reading? || p.Minted? || p.Selected? || p.Lost? || p.Won?
  }

  function At(s: State, r: nat, phase: Phase): State
    requires r < |s.requests|
  {
    s.(requests := s.requests[r := s.requests[r].(phase := phase)])
  }

  /** What a request that throws leaves behind: a token it minted and did not delete again. */
  function AfterFailure(q: Request): Phase
    requires Running(q.phase)
  {
    match q.phase
    case Minted(t) => Failed(if t == q.presented then None else Some(t), false)
    case Selected(t, _) => Failed(Some(t), false)
    case Lost(t, _) => Failed(Some(t), false)
    case Won(t) => Failed(if t == q.presented then None else Some(t), true)
    case _ => Failed(None, false)
  }

  function Issue(s: State, client: string, person: string, arrives: bool): State {
    var (t, owner) := (|s.minted|, Row(client, Some(person)));
    s.(rows := s.rows[t := owner],
       minted := s.minted + [Mint(|s.chains|, None)],
       chains := s.chains + [Chain(owner, t, false)],
       confirmed := s.confirmed + {t},
       delivered := if arrives then s.delivered + {t} else s.delivered)
  }

  function Rotate(s: State, r: nat): State
    requires Enabled(s, MintNew(r, false))
  {
    var (q, t) := (s.requests[r], |s.minted|);
    At(s, r, Minted(t)).(rows := s.rows[t := q.phase.owner],
                         minted := s.minted + [Mint(s.minted[q.presented].chain, Some(r))])
  }

  /** The delete, where the racing requests meet: whoever finds the old row stands. */
  function Meet(s: State, r: nat): State
    requires Enabled(s, Delete(r))
  {
    var q := s.requests[r];
    var (t, owner, c) := (q.phase.replacement, q.phase.owner, s.minted[q.presented].chain);
    if q.presented in s.rows && s.rows[q.presented] == owner then
      At(s, r, Won(t)).(rows := s.rows - {q.presented},
                        chains := s.chains[c := s.chains[c].(head := t)],
                        confirmed := s.confirmed + {t})
    else
      At(s, r, Lost(t, owner))
  }

  function Revoked(s: State, owner: Row): State {
    s.(rows := map t | t in s.rows && s.rows[t] != owner :: s.rows[t],
       chains := seq(|s.chains|, c requires 0 <= c < |s.chains| =>
                     if s.chains[c].owner == owner then s.chains[c].(revoked := true) else s.chains[c]))
  }

  function Apply(s: State, e: Event): State
    requires Enabled(s, e)
  {
    match e
    case Grant(client, person, arrives) => Issue(s, client, person, arrives)
    case Revoke(client, person) => Revoked(s, Row(client, Some(person)))
    case Present(token) => s.(requests := s.requests + [Request(token, Presented)])
    case Read(r, refuse) =>
      var t := s.requests[r].presented;
      At(s, r, if t in s.rows && !refuse then Reading(s.rows[t]) else Refused)
    case MintNew(r, same) =>
      if same then At(s, r, Minted(s.requests[r].presented)) else Rotate(s, r)
    case Select(r) =>
      var (q, t) := (s.requests[r], s.requests[r].phase.replacement);
      At(s, r, if t == q.presented then Won(t)
               else if t in s.rows && s.rows[t].person.Some? then Selected(t, s.rows[t])
               else Refused)
    case Delete(r) => Meet(s, r)
    case CleanUp(r) =>
      var q := s.requests[r].phase;
      At(s, r, Refused).(rows := Without(s.rows, q.replacement, q.owner))
    case Reply(r, arrives) =>
      var t := s.requests[r].phase.replacement;
      if arrives then At(s, r, Replied(t)).(delivered := s.delivered + {t})
      else At(s, r, AfterFailure(s.requests[r]))
    case Fail(r) => At(s, r, AfterFailure(s.requests[r]))
  }

  ghost predicate Run(s: State, events: seq<Event>, t: State)
    decreases |events|
  {
    if events == [] then t == s
    else Enabled(s, events[0]) && Run(Apply(s, events[0]), events[1..], t)
  }

  // ---------------------------------------------------------------------------------------
  // What every step keeps.
  // ---------------------------------------------------------------------------------------

  predicate Known(s: State, t: Token) {
    t < |s.minted| && s.minted[t].chain < |s.chains|
  }

  function ChainOf(s: State, t: Token): Chain
    requires Known(s, t)
  {
    s.chains[s.minted[t].chain]
  }

  /** Every row is a token that was minted, under the owner of its chain. */
  ghost predicate TableTrue(s: State) {
    && (forall t :: 0 <= t < |s.minted| ==> s.minted[t].chain < |s.chains|)
    && (forall t :: t in s.rows ==> Known(s, t) && s.rows[t] == ChainOf(s, t).owner)
  }

  predicate HeadTrue(s: State, c: nat)
    requires c < |s.chains|
  {
    var h := s.chains[c];
    && Known(s, h.head) && s.minted[h.head].chain == c && h.head in s.confirmed
    && (!h.revoked ==> h.head in s.rows)
    && h.owner.person.Some?
  }

  /** A live confirmed token is the head of a chain nobody has revoked. */
  predicate ConfirmedTrue(s: State, t: Token) {
    Known(s, t) && (t in s.rows ==> ChainOf(s, t).head == t && !ChainOf(s, t).revoked)
  }

  /** `t` was minted by request `r` to replace the token it presented. */
  predicate Replaces(s: State, r: nat, t: Token)
    requires r < |s.requests|
  {
    var p := s.requests[r].presented;
    t != p && Known(s, p) && Known(s, t) && s.minted[t] == Mint(s.minted[p].chain, Some(r))
  }

  /** A replacement whose delete is still to come: live, unless its chain was revoked. */
  predicate Candidate(s: State, r: nat, t: Token)
    requires r < |s.requests|
  {
    Replaces(s, r, t) && t !in s.confirmed && (!ChainOf(s, t).revoked ==> t in s.rows)
  }

  predicate Standing(s: State, r: nat, t: Token)
    requires r < |s.requests|
  {
    Replaces(s, r, t) && t in s.confirmed && s.requests[r].presented !in s.rows
  }

  predicate RequestTrue(s: State, r: nat)
    requires r < |s.requests|
  {
    var (p, phase) := (s.requests[r].presented, s.requests[r].phase);
    && p in s.delivered && Known(s, p)
    && match phase
       case Reading(owner) => owner == ChainOf(s, p).owner
       case Minted(t) => t == p || Candidate(s, r, t)
       case Selected(t, owner) => Candidate(s, r, t) && owner == ChainOf(s, p).owner
       case Lost(t, owner) => Replaces(s, r, t) && t !in s.confirmed && owner == ChainOf(s, p).owner && p !in s.rows
       case Won(t) => t == p || Standing(s, r, t)
       case Replied(t) => t in s.delivered && (t == p || Standing(s, r, t))
       case Failed(left, won) => left.Some? ==> if won then Standing(s, r, left.value)
                                                else Replaces(s, r, left.value) && left.value !in s.confirmed
       case _ => true
  }

  /** The token whose delete request `r` won, if it won one. */
  function Winnings(q: Request): Option<Token> {
    match q.phase
    case Won(t) => if t == q.presented then None else Some(t)
    case Replied(t) => if t == q.presented then None else Some(t)
    case Failed(left, won) => if won then left else None
    case _ => None
  }

  ghost predicate OneWinner(s: State) {
    forall i, j :: 0 <= i < j < |s.requests| && s.requests[i].presented == s.requests[j].presented ==>
      Winnings(s.requests[i]).None? || Winnings(s.requests[j]).None?
  }

  /** The request still answers for the token it minted, or failed before it could delete it. */
  predicate Holds(q: Request, t: Token) {
    match q.phase
    case Minted(u) => u == t
    case Selected(u, _) => u == t
    case Lost(u, _) => u == t
    case Failed(left, won) => left == Some(t) && !won
    case _ => false
  }

  predicate HeldBack(s: State, t: Token) {
    && t < |s.minted| && s.minted[t].request.Some? && s.minted[t].request.value < |s.requests|
    && Holds(s.requests[s.minted[t].request.value], t)
  }

  /** The client has the head of the chain, or the answer carrying it is on its way or was lost. */
  predicate Reached(s: State, c: nat)
    requires c < |s.chains|
  {
    var h := s.chains[c].head;
    || h in s.delivered
    || (h < |s.minted| && s.minted[h].request.None?)
    || (&& h < |s.minted| && s.minted[h].request.Some? && s.minted[h].request.value < |s.requests|
        && (s.requests[s.minted[h].request.value].phase == Won(h)
            || s.requests[s.minted[h].request.value].phase == Failed(Some(h), true)))
  }

  /** What is true of the tokens, of the requests, and of the tokens between the two. */
  ghost predicate TokensTrue(s: State) {
    && TableTrue(s)
    && (forall c :: 0 <= c < |s.chains| ==> HeadTrue(s, c))
    && (forall t :: t in s.confirmed ==> ConfirmedTrue(s, t))
    && s.delivered <= s.confirmed
  }

  ghost predicate RequestsTrue(s: State) {
    && (forall r :: 0 <= r < |s.requests| ==> RequestTrue(s, r))
    && OneWinner(s)
  }

  ghost predicate Accounted(s: State) {
    && (forall t :: t in s.rows && t !in s.confirmed ==> HeldBack(s, t))
    && (forall c :: 0 <= c < |s.chains| ==> Reached(s, c))
  }

  ghost predicate Invariant(s: State) {
    TokensTrue(s) && RequestsTrue(s) && Accounted(s)
  }

  /** The request a step belongs to; -1 for a sign-in or a revocation. */
  function Mover(e: Event): int {
    match e
    case Grant(_, _, _) => -1
    case Revoke(_, _) => -1
    case Present(_) => -1
    case Read(r, _) => r
    case MintNew(r, _) => r
    case Select(r) => r
    case Delete(r) => r
    case CleanUp(r) => r
    case Reply(r, _) => r
    case Fail(r) => r
  }

  predicate MintedBy(s: State, t: Token, r: int) {
    t < |s.minted| && s.minted[t].request.Some? && s.minted[t].request.value == r
  }

  /** What any step may do to tokens: old ones never come back, and a token is newly confirmed, or
      unconfirmed and gone, only by the request that minted it or by a revocation. */
  ghost predicate Later(s: State, n: State, mover: int) {
    Extends(s, n) && TokensMove(s, n, mover)
  }

  ghost predicate Extends(s: State, n: State) {
    && s.minted <= n.minted && s.delivered <= n.delivered && s.confirmed <= n.confirmed
    && |s.chains| <= |n.chains|
    && (forall c :: 0 <= c < |s.chains| ==>
          n.chains[c].owner == s.chains[c].owner && (s.chains[c].revoked ==> n.chains[c].revoked))
    && (forall t :: 0 <= t < |s.minted| && t in n.rows ==> t in s.rows && n.rows[t] == s.rows[t])
  }

  ghost predicate TokensMove(s: State, n: State, mover: int) {
    && (forall t :: 0 <= t < |s.minted| && t in n.confirmed && t !in s.confirmed ==> MintedBy(s, t, mover))
    && (forall t :: t in s.rows && t !in n.rows && Known(s, t) && s.minted[t].chain < |n.chains| ==>
          t in s.confirmed || MintedBy(s, t, mover) || n.chains[s.minted[t].chain].revoked)
  }

  lemma StepExtends(s: State, e: Event)
    requires Invariant(s) && Enabled(s, e)
    ensures Extends(s, Apply(s, e))
  {
    hide RequestsTrue, Accounted, HeadTrue;
  }

  lemma StepMoves(s: State, e: Event)
    requires Invariant(s) && Enabled(s, e)
    ensures TokensMove(s, Apply(s, e), Mover(e))
  {
    hide Accounted, OneWinner, HeadTrue;
    if Mover(e) >= 0 { assert RequestTrue(s, Mover(e)); }
  }

  lemma StepIsLater(s: State, e: Event)
    requires Invariant(s) && Enabled(s, e)
    ensures Later(s, Apply(s, e), Mover(e))
  {
    StepExtends(s, e);
    StepMoves(s, e);
  }

  lemma RequestStays(s: State, n: State, mover: int, i: nat)
    requires TokensTrue(s) && i < |s.requests| && RequestTrue(s, i)
    requires Later(s, n, mover) && mover != i
    requires i < |n.requests| && n.requests[i] == s.requests[i]
    ensures RequestTrue(n, i)
  {
  }

  lemma HeadsStep(s: State, e: Event)
    requires Invariant(s) && Enabled(s, e)
    ensures forall c :: 0 <= c < |Apply(s, e).chains| ==> HeadTrue(Apply(s, e), c)
  {
    hide Accounted, OneWinner, ConfirmedTrue, AfterFailure;
    var n := Apply(s, e);
    if Mover(e) >= 0 { assert RequestTrue(s, Mover(e)); }
    forall c | 0 <= c < |n.chains| ensures HeadTrue(n, c) { assert c < |s.chains| ==> HeadTrue(s, c); }
  }

  lemma ConfirmedStep(s: State, e: Event)
    requires Invariant(s) && Enabled(s, e)
    ensures forall t :: t in Apply(s, e).confirmed ==> ConfirmedTrue(Apply(s, e), t)
  {
    hide Winnings, Holds, Reached, OneWinner, HeadTrue;
    var n := Apply(s, e);
    if Mover(e) >= 0 { assert RequestTrue(s, Mover(e)); }
    forall t | t in n.confirmed ensures ConfirmedTrue(n, t) { assert t in s.confirmed ==> ConfirmedTrue(s, t); }
  }

  lemma TableStep(s: State, e: Event)
    requires Invariant(s) && Enabled(s, e)
    ensures TableTrue(Apply(s, e))
  {
    hide Accounted, OneWinner, HeadTrue, ConfirmedTrue;
    if Mover(e) >= 0 { assert RequestTrue(s, Mover(e)); }
  }

  lemma DeliveredStep(s: State, e: Event)
    requires Invariant(s) && Enabled(s, e)
    ensures Apply(s, e).delivered <= Apply(s, e).confirmed
  {
    hide Accounted, OneWinner, HeadTrue, ConfirmedTrue, TableTrue;
    if Mover(e) >= 0 { assert RequestTrue(s, Mover(e)); }
  }

  lemma TokensStep(s: State, e: Event)
    requires Invariant(s) && Enabled(s, e)
    ensures TokensTrue(Apply(s, e))
  {
    hide Apply;
    HeadsStep(s, e);
    ConfirmedStep(s, e);
    TableStep(s, e);
    DeliveredStep(s, e);
  }

  lemma OwnStep(s: State, e: Event)
    requires Invariant(s) && Enabled(s, e) && Mover(e) >= 0
    ensures RequestTrue(Apply(s, e), Mover(e))
  {
    hide Accounted, OneWinner, HeadTrue;
    assert RequestTrue(s, Mover(e));
  }

  /** A request wins nothing but by finding the presented token in the table. */
  lemma OwnWinnings(s: State, e: Event)
    requires Invariant(s) && Enabled(s, e) && Mover(e) >= 0
    ensures var (q, w) := (s.requests[Mover(e)], Winnings(Apply(s, e).requests[Mover(e)]));
      w.None? || w == Winnings(q) || (e.Delete? && q.presented in s.rows)
  {
    assert RequestTrue(s, Mover(e));
  }

  lemma WinnerGone(s: State, i: nat)
    requires Invariant(s) && i < |s.requests| && Winnings(s.requests[i]).Some?
    ensures s.requests[i].presented !in s.rows
  {
    assert RequestTrue(s, i);
  }

  /** What a step leaves alone: the other requests, and at first the one it adds. */
  lemma OthersSame(s: State, e: Event)
    requires Enabled(s, e)
    ensures var n := Apply(s, e);
      && |s.requests| <= |n.requests| <= |s.requests| + 1
      && (forall i :: 0 <= i < |s.requests| && i != Mover(e) ==> n.requests[i] == s.requests[i])
      && (forall i :: 0 <= i < |s.requests| ==> n.requests[i].presented == s.requests[i].presented)
      && (|s.requests| < |n.requests| ==> e.Present? && n.requests[|s.requests|] == Request(e.token, Presented))
  {
  }

  lemma RequestsStep(s: State, e: Event)
    requires Invariant(s) && Enabled(s, e)
    ensures RequestsTrue(Apply(s, e))
  {
    hide Apply, RequestTrue, TokensTrue;
    var n := Apply(s, e);
    OthersSame(s, e);
    StepIsLater(s, e);
    forall i | 0 <= i < |n.requests| ensures RequestTrue(n, i) {
      if i == |s.requests| { PresentedTrue(s, e); }
      else if i == Mover(e) { OwnStep(s, e); }
      else { RequestStays(s, n, Mover(e), i); }
    }
    OneWinnerStep(s, e);
  }

  lemma PresentedTrue(s: State, e: Event)
    requires Invariant(s) && Enabled(s, e) && e.Present?
    ensures RequestTrue(Apply(s, e), |s.requests|)
  {
    assert ConfirmedTrue(s, e.token);
  }

  lemma OneWinnerStep(s: State, e: Event)
    requires Invariant(s) && Enabled(s, e)
    ensures OneWinner(Apply(s, e))
  {
    assert forall t :: Winnings(Request(t, Presented)).None?;
    hide Apply, RequestTrue, TokensTrue, Accounted, Winnings;
    var n := Apply(s, e);
    OthersSame(s, e);
    if Mover(e) >= 0 { OwnWinnings(s, e); }
    forall i | 0 <= i < |s.requests| && Winnings(s.requests[i]).Some? ensures s.requests[i].presented !in s.rows {
      WinnerGone(s, i);
    }
  }

  /** A request lets go of the token it minted only by deleting it, winning with it, or failing. */
  lemma OwnHeld(s: State, e: Event, t: Token)
    requires Invariant(s) && Enabled(s, e) && MintedBy(s, t, Mover(e)) && t !in s.confirmed
    requires t in s.rows && t in Apply(s, e).rows && t !in Apply(s, e).confirmed
    ensures HeldBack(Apply(s, e), t)
  {
    assert HeldBack(s, t) && RequestTrue(s, Mover(e)) && HeadTrue(s, s.minted[t].chain);
  }

  lemma NewHeld(s: State, e: Event, t: Token)
    requires Invariant(s) && Enabled(s, e) && t in Apply(s, e).rows && t !in Apply(s, e).confirmed
    requires |s.minted| <= t
    ensures HeldBack(Apply(s, e), t)
  {
    TableStep(s, e);
  }

  lemma HeldStep(s: State, e: Event)
    requires Invariant(s) && Enabled(s, e)
    ensures forall t :: t in Apply(s, e).rows && t !in Apply(s, e).confirmed ==> HeldBack(Apply(s, e), t)
  {
    hide Apply, RequestTrue, TokensTrue, Holds;
    var n := Apply(s, e);
    OthersSame(s, e);
    StepIsLater(s, e);
    forall t | t in n.rows && t !in n.confirmed ensures HeldBack(n, t) {
      if |s.minted| <= t { NewHeld(s, e, t); }
      else if MintedBy(s, t, Mover(e)) { OwnHeld(s, e, t); }
      else { assert HeldBack(s, t); }
    }
  }

  lemma OwnReached(s: State, e: Event, c: nat)
    requires Invariant(s) && Enabled(s, e) && c < |s.chains| && MintedBy(s, s.chains[c].head, Mover(e))
    ensures Reached(Apply(s, e), c)
  {
    hide TableTrue, OneWinner, HeldBack, ConfirmedTrue;
    assert RequestTrue(s, Mover(e)) && Reached(s, c) && HeadTrue(s, c);
  }

  lemma NewReached(s: State, e: Event, c: nat)
    requires Invariant(s) && Enabled(s, e) && c < |Apply(s, e).chains|
    requires c < |s.chains| ==> Apply(s, e).chains[c].head != s.chains[c].head
    ensures Reached(Apply(s, e), c)
  {
    if Mover(e) >= 0 { assert RequestTrue(s, Mover(e)); }
  }

  lemma ReachedStep(s: State, e: Event)
    requires Invariant(s) && Enabled(s, e)
    ensures forall c :: 0 <= c < |Apply(s, e).chains| ==> Reached(Apply(s, e), c)
  {
    hide Apply, RequestTrue, TableTrue, ConfirmedTrue, HeldBack, OneWinner;
    var n := Apply(s, e);
    OthersSame(s, e);
    StepIsLater(s, e);
    forall c | 0 <= c < |n.chains| ensures Reached(n, c) {
      if |s.chains| <= c || n.chains[c].head != s.chains[c].head { NewReached(s, e, c); }
      else if MintedBy(s, s.chains[c].head, Mover(e)) { OwnReached(s, e, c); }
      else { assert Reached(s, c) && HeadTrue(s, c); }
    }
  }

  lemma StepKeeps(s: State, e: Event)
    requires Invariant(s) && Enabled(s, e)
    ensures Invariant(Apply(s, e))
  {
    TokensStep(s, e);
    RequestsStep(s, e);
    HeldStep(s, e);
    ReachedStep(s, e);
  }

  lemma {:induction false} EveryRunKeeps(s: State, events: seq<Event>, t: State)
    requires Invariant(s) && Run(s, events, t)
    ensures Invariant(t)
    decreases |events|
  {
    hide Invariant;
    if events != [] {
      StepKeeps(s, events[0]);
      EveryRunKeeps(Apply(s, events[0]), events[1..], t);
    }
  }

  lemma EveryStateTrue(events: seq<Event>, t: State)
    requires Run(EMPTY, events, t)
    ensures Invariant(t)
  {
    assert Invariant(EMPTY);
    EveryRunKeeps(EMPTY, events, t);
  }

  // ---------------------------------------------------------------------------------------
  // What the rotation is for.
  // ---------------------------------------------------------------------------------------

  /** Each chain nobody revoked has exactly one live confirmed token, whatever raced or failed;
      a revoked one has none. */
  lemma OneLiveToken(events: seq<Event>, s: State, c: nat, t: Token)
    requires Run(EMPTY, events, s) && c < |s.chains|
    ensures t in s.rows && t in s.confirmed && t < |s.minted| && s.minted[t].chain == c
       <==> !s.chains[c].revoked && t == s.chains[c].head
  {
    EveryStateTrue(events, s);
    assert HeadTrue(s, c);
    assert t in s.confirmed ==> ConfirmedTrue(s, t);
  }

  /** Of all the requests that ever presented one token, at most one was answered with a
      replacement for it, and from then on the presented token is dead. */
  lemma OneReplacement(events: seq<Event>, s: State, i: nat, j: nat)
    requires Run(EMPTY, events, s) && i < |s.requests| && j < |s.requests|
    requires s.requests[i].presented == s.requests[j].presented
    requires s.requests[i].phase.Replied? && s.requests[i].phase.replacement != s.requests[i].presented
    ensures s.requests[i].presented !in s.rows
    ensures s.requests[j].phase.Replied? && s.requests[j].phase.replacement != s.requests[j].presented ==> i == j
  {
    EveryStateTrue(events, s);
    assert RequestTrue(s, i);
    if i != j { assert Winnings(s.requests[i]).None? || Winnings(s.requests[j]).None?; }
  }

  /** A token a client was never sent, and that is still live, is either the head of its chain or
      the replacement of a request that is still running or broke off before its delete. */
  lemma LiveTokensAccountedFor(events: seq<Event>, s: State, t: Token)
    requires Run(EMPTY, events, s) && t in s.rows
    ensures t < |s.minted| && s.minted[t].chain < |s.chains|
    ensures t !in s.confirmed ==> t !in s.delivered && HeldBack(s, t)
    ensures t in s.confirmed ==> t == s.chains[s.minted[t].chain].head
  {
    EveryStateTrue(events, s);
    assert t in s.confirmed ==> ConfirmedTrue(s, t);
  }

  predicate Settled(p: Phase) {
    p.Replied? || p.Refused? || (p.Failed? && (p.won || p.left.None?))
  }

  /** Once every request has ended, and none broke off between its mint and its clean-up, the
      table holds exactly one token for each chain that is not revoked, and nothing else. */
  lemma QuietTable(events: seq<Event>, s: State, t: Token)
    requires Run(EMPTY, events, s)
    requires forall r :: 0 <= r < |s.requests| ==> Settled(s.requests[r].phase)
    ensures t in s.rows <==> exists c :: 0 <= c < |s.chains| && !s.chains[c].revoked && s.chains[c].head == t
  {
    EveryStateTrue(events, s);
    if t in s.rows {
      assert t !in s.confirmed ==> HeldBack(s, t);
      assert ConfirmedTrue(s, t);
    }
    forall c | 0 <= c < |s.chains| && !s.chains[c].revoked && s.chains[c].head == t ensures t in s.rows {
      assert HeadTrue(s, c);
    }
  }

  lemma {:induction false} RunExtends(s: State, events: seq<Event>, t: State)
    requires Invariant(s) && Run(s, events, t)
    ensures Extends(s, t)
    decreases |events|
  {
    hide Invariant, Apply, Enabled;
    if events != [] {
      StepKeeps(s, events[0]);
      StepIsLater(s, events[0]);
      RunExtends(Apply(s, events[0]), events[1..], t);
    }
  }

  /** A revocation takes every token of that client and person out of the table, at whatever stage its
      request is, and ends every grant between them; every other row and grant stays as it was. */
  lemma RevokeTakesAll(events: seq<Event>, s: State, client: string, person: string)
    requires Run(EMPTY, events, s)
    ensures var (n, owner) := (Apply(s, Revoke(client, person)), Row(client, Some(person)));
      && (forall t :: t in n.rows <==> t in s.rows && s.rows[t] != owner)
      && (forall t :: t in n.rows ==> n.rows[t] == s.rows[t] && Known(n, t) && ChainOf(n, t).owner != owner)
      && |n.chains| == |s.chains|
      && (forall c :: 0 <= c < |s.chains| ==>
            n.chains[c] == if s.chains[c].owner == owner then s.chains[c].(revoked := true) else s.chains[c])
      && n == s.(rows := n.rows, chains := n.chains)
  {
    EveryStateTrue(events, s);
  }

  /** A request that is refused, or finds no row, ends there and leaves every row as it was. */
  lemma RefusedEnds(s: State, r: nat, refuse: bool)
    requires Enabled(s, Read(r, refuse))
    ensures var n := Apply(s, Read(r, refuse));
      && n.rows == s.rows && n.chains == s.chains && n.minted == s.minted && n.delivered == s.delivered
      && (n.requests[r].phase == Refused <==> refuse || s.requests[r].presented !in s.rows)
      && (n.requests[r].phase.Reading? <==> n.requests[r].phase != Refused)
  {
  }

  /** A mint that gives the presented token back changes no row, and an answer counts as delivered exactly
      when it arrives; one that does not arrive is a failure. */
  lemma SameTokenAndReply(s: State, r: nat, arrives: bool)
    ensures Enabled(s, MintNew(r, true)) ==>
      Apply(s, MintNew(r, true)) == At(s, r, Minted(s.requests[r].presented))
    ensures Enabled(s, Reply(r, arrives)) ==>
      var (n, t) := (Apply(s, Reply(r, arrives)), s.requests[r].phase.replacement);
      && n.rows == s.rows && n.chains == s.chains
      && n.delivered == (if arrives then s.delivered + {t} else s.delivered)
      && (n.requests[r].phase.Replied? <==> arrives) && (n.requests[r].phase.Failed? <==> !arrives)
  {
  }

  /** And for good: whatever runs afterwards, those grants stay revoked. */
  lemma {:induction false} RevocationLasts(s: State, events: seq<Event>, n: State, c: nat)
    requires Run(s, events, n) && c < |s.chains| && s.chains[c].revoked
    ensures c < |n.chains| && n.chains[c].revoked && n.chains[c].owner == s.chains[c].owner
    decreases |events|
  {
    hide Apply, Enabled;
    if events != [] {
      ChainLasts(s, events[0], c);
      RevocationLasts(Apply(s, events[0]), events[1..], n, c);
    }
  }

  lemma ChainLasts(s: State, e: Event, c: nat)
    requires Enabled(s, e) && c < |s.chains|
    ensures c < |Apply(s, e).chains| && Apply(s, e).chains[c].owner == s.chains[c].owner
    ensures s.chains[c].revoked ==> Apply(s, e).chains[c].revoked
  {
  }

  /** A sign-in starts a grant of its own, with a live token of its own, and touches no other. */
  lemma GrantStarts(events: seq<Event>, s: State, client: string, person: string, arrives: bool)
    requires Run(EMPTY, events, s)
    ensures var (n, owner) := (Apply(s, Grant(client, person, arrives)), Row(client, Some(person)));
      && |n.chains| == |s.chains| + 1 && n.chains[..|s.chains|] == s.chains
      && var h := n.chains[|s.chains|];
         && h.owner == owner && !h.revoked && h.head !in s.rows && h.head !in s.delivered
         && n.rows == s.rows[h.head := owner]
         && n.delivered == if arrives then s.delivered + {h.head} else s.delivered
  {
    EveryStateTrue(events, s);
  }

  /** A revoked chain never regains a token anyone could use: whatever was in flight, no token of
      it that a client holds, or is ever sent, is live again. */
  lemma RevokedStaysDead(before: seq<Event>, s: State, after: seq<Event>, n: State, c: nat, t: Token)
    requires Run(EMPTY, before, s) && Run(s, after, n)
    requires c < |s.chains| && s.chains[c].revoked
    requires t in n.delivered && t < |n.minted| && n.minted[t].chain == c
    ensures t !in n.rows
  {
    EveryStateTrue(before, s);
    RunExtends(s, after, n);
    EveryRunKeeps(s, after, n);
    assert ConfirmedTrue(n, t);
  }

  /** A confirmed token leaves the table only when its chain moves on to a replacement the same
      client was just granted, or when the person revokes the client; a failure never costs it. */
  lemma TokensDieTwoWays(events: seq<Event>, s: State, e: Event, t: Token)
    requires Run(EMPTY, events, s) && Enabled(s, e)
    requires t in s.rows && t in s.confirmed && t !in Apply(s, e).rows
    ensures (e.Delete? && s.requests[e.r].presented == t && Apply(s, e).requests[e.r].phase.Won?)
         || (e.Revoke? && s.rows[t] == Row(e.client, Some(e.person)))
  {
    EveryStateTrue(events, s);
    assert e.CleanUp? ==> RequestTrue(s, e.r);
  }

  /** Until an answer reaches it, a client's last token is dead only because the answer that
      replaces it was lost after its delete, or is still on its way. */
  lemma LockedOutOnlyByLostAnswer(events: seq<Event>, s: State, c: nat)
    requires Run(EMPTY, events, s) && c < |s.chains| && !s.chains[c].revoked
    ensures s.chains[c].head in s.rows && Reached(s, c)
  {
    EveryStateTrue(events, s);
    assert HeadTrue(s, c) && Reached(s, c);
  }

  lemma {:induction false} RunThen(s: State, events: seq<Event>, t: State, e: Event)
    requires Run(s, events, t) && Enabled(t, e)
    ensures Run(s, events + [e], Apply(t, e))
    decreases |events|
  {
    hide Apply, Enabled;
    if events == [] {
      assert [e][1..] == [];
    } else {
      RunThen(Apply(s, events[0]), events[1..], t, e);
      assert (events + [e])[1..] == events[1..] + [e];
    }
  }

  /** From every reachable state, a client holding the head of its chain can refresh: presented on
      its own the token is replaced by a new one, which is delivered and becomes the head. */
  lemma RefreshWorks(events: seq<Event>, s: State, c: nat) returns (more: seq<Event>, n: State)
    requires Run(EMPTY, events, s) && c < |s.chains| && !s.chains[c].revoked && s.chains[c].head in s.delivered
    ensures Run(s, more, n)
    ensures |n.chains| == |s.chains| && n.chains[c].head == |s.minted| && n.chains[c].head in n.delivered
    ensures n.chains[c].head in n.rows && s.chains[c].head !in n.rows
  {
    hide Run, Apply;
    EveryStateTrue(events, s);
    more, n := RefreshSteps(s, c);
  }

  lemma RefreshSteps(s: State, c: nat) returns (more: seq<Event>, n: State)
    requires Invariant(s) && c < |s.chains| && !s.chains[c].revoked && s.chains[c].head in s.delivered
    ensures Run(s, more, n)
    ensures |n.chains| == |s.chains| && n.chains[c].head == |s.minted| && n.chains[c].head in n.delivered
    ensures n.chains[c].head in n.rows && s.chains[c].head !in n.rows
  {
    hide RequestsTrue, Accounted, ConfirmedTrue, RequestTrue;
    assert HeadTrue(s, c);
    var (r, h) := (|s.requests|, s.chains[c].head);
    more, n := [], s;
    RunThen(s, more, n, Present(h));
    more, n := more + [Present(h)], Apply(n, Present(h));
    RunThen(s, more, n, Read(r, false));
    more, n := more + [Read(r, false)], Apply(n, Read(r, false));
    RunThen(s, more, n, MintNew(r, false));
    more, n := more + [MintNew(r, false)], Apply(n, MintNew(r, false));
    RunThen(s, more, n, Select(r));
    more, n := more + [Select(r)], Apply(n, Select(r));
    RunThen(s, more, n, Delete(r));
    more, n := more + [Delete(r)], Apply(n, Delete(r));
    RunThen(s, more, n, Reply(r, true));
    more, n := more + [Reply(r, true)], Apply(n, Reply(r, true));
  }

  /** With nothing between them, a request's own statements are the retire step run on its own. */
  lemma AloneIsRetired(events: seq<Event>, s: State, r: nat) returns (more: seq<Event>, n: State)
    requires Run(EMPTY, events, s) && r < |s.requests| && s.requests[r].phase.Minted?
    ensures Run(s, more, n) && (forall e :: e in more ==> Mover(e) == r)
    ensures var (p, t) := (s.requests[r].presented, s.requests[r].phase.replacement);
      && n.rows == Retired(s.rows, p, t) && r < |n.requests|
      && n.requests[r] == Request(p, if Stands(s.rows, p, t) then Won(t) else Refused)
  {
    hide TableTrue, Accounted, ConfirmedTrue, OneWinner, Standing;
    EveryStateTrue(events, s);
    assert RequestTrue(s, r);
    RunThen(s, [], s, Select(r));
    more, n := [Select(r)], Apply(s, Select(r));
    if n.requests[r].phase.Selected? {
      RunThen(s, more, n, Delete(r));
      more, n := more + [Delete(r)], Apply(n, Delete(r));
    }
    if n.requests[r].phase.Lost? {
      RunThen(s, more, n, CleanUp(r));
      more, n := more + [CleanUp(r)], Apply(n, CleanUp(r));
    }
  }
}
