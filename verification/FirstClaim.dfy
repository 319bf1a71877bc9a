/** Claiming a deployment nobody has an account on (src/server/api.ts, auth-policy.ts,
    registration-context.ts): many replicas, each with its own busy flag and its one lock session,
    one advisory lock between them, and sign-ups the rule admits going past it all. */
module FirstClaim {
  import opened Options

  // ---------------------------------------------------------------------------------------
  // Who may have an account.
  // ---------------------------------------------------------------------------------------

  /** Addresses are taken as already trimmed and in lower case. */
  datatype Rule = Closed | Anyone | Listed(emails: set<string>, domains: set<string>)

  datatype Config = Config(rule: Rule, localAuth: bool, googleAuth: bool)

  datatype Path = SignUpEmail | SocialCallback | OtherPath

  function LastAt(email: string): int {
    if email == "" then -1
    else if email[|email| - 1] == '@' then |email| - 1
    else LastAt(email[..|email| - 1])
  }

  predicate EmailAllowed(rule: Rule, email: string) {
    match rule
    case Closed => false
    case Anyone => true
    case Listed(emails, domains) =>
      email in emails || (var at := LastAt(email); 0 <= at < |email| && email[at + 1..] in domains)
  }

  /** Who a rule admits, said of addresses rather than of how they are searched: a listed address, or any
      address whose part after its last `@` is a listed domain. */
  ghost predicate Admits(rule: Rule, email: string) {
    match rule
    case Closed => false
    case Anyone => true
    case Listed(emails, domains) => email in emails || InDomains(domains, email)
  }

  ghost predicate InDomains(domains: set<string>, email: string) {
    exists local: string, domain: string :: Address(local, domain) == email && '@' !in domain && domain in domains
  }

  function Address(local: string, domain: string): string {
    local + "@" + domain
  }

  lemma {:induction false} LastAtIs(email: string)
    ensures -1 <= LastAt(email) < |email|
    ensures LastAt(email) == -1 <==> '@' !in email
    ensures var at := LastAt(email); at >= 0 ==> email[at] == '@' && '@' !in email[at + 1..]
  {
    if email != "" && email[|email| - 1] != '@' {
      var rest := email[..|email| - 1];
      LastAtIs(rest);
      assert email == rest + [email[|email| - 1]];
      var at := LastAt(email);
      if at >= 0 { assert email[at + 1..] == rest[at + 1..] + [email[|email| - 1]]; }
    }
  }

  /** The search finds exactly the addresses the rule admits. */
  lemma EmailAllowedExactly(rule: Rule, email: string)
    ensures EmailAllowed(rule, email) <==> Admits(rule, email)
  {
    LastAtIs(email);
    var at := LastAt(email);
    if at >= 0 {
      assert email == Address(email[..at], email[at + 1..]);
    }
    if rule.Listed? {
      forall local: string, domain: string | Address(local, domain) == email && '@' !in domain ensures at >= 0 && domain == email[at + 1..] {
        AfterLastAt(local, domain);
      }
    }
  }

  lemma AfterLastAt(local: string, domain: string)
    requires '@' !in domain
    ensures LastAt(Address(local, domain)) == |local|
    ensures Address(local, domain)[|local| + 1..] == domain
  {
    var email := Address(local, domain);
    LastAtIs(email);
    var at := LastAt(email);
    assert email[|local|] == '@';
    assert forall i :: |local| < i < |email| ==> email[i] == domain[i - |local| - 1];
    assert forall i :: at < i < |email| ==> email[i] == email[at + 1..][i - at - 1];
  }

  /** `claim` is the mark the claim handler sets for the extent of its one call. */
  predicate MayCreate(config: Config, email: string, path: Path, verified: Option<bool>, claim: bool) {
    match path
    case SocialCallback => config.googleAuth && verified != Some(false) && EmailAllowed(config.rule, email)
    case SignUpEmail => config.localAuth && (EmailAllowed(config.rule, email) || claim)
    case OtherPath => false
  }

  /** Who may have an account, by the way in: a social sign-in never by a claim, local sign-up by one too,
      each only where it is on, and no other way. */
  lemma MayCreateExactly(config: Config, email: string, path: Path, verified: Option<bool>, claim: bool)
    ensures MayCreate(config, email, path, verified, claim) <==>
      || (path == SocialCallback && config.googleAuth && verified != Some(false) && Admits(config.rule, email))
      || (path == SignUpEmail && config.localAuth && Admits(config.rule, email))
      || (path == SignUpEmail && config.localAuth && claim)
  {
    EmailAllowedExactly(config.rule, email);
    hide EmailAllowed, Admits;
  }

  // ---------------------------------------------------------------------------------------
  // The handler on its own: what one pass through its try and finally leaves behind.
  // ---------------------------------------------------------------------------------------

  /** One process: its busy flag, and how often its one lock session holds the advisory lock. */
  class ClaimRoute {
    var busy: bool
    var depth: nat

    constructor ()
      ensures !busy && depth == 0
    {
      busy, depth := false, 0;
    }

    /** A request whose setup code was right. What the outside answers is given: whether the lock
        pool connects, whether no other process holds the lock, whether nobody has an account when
        asked under it, whether the sign-up commits, and whether the unlock answers. */
    method Claim(connects: bool, free: bool, unclaimed: bool, commits: bool, unlocks: bool)
        returns (busyElsewhere: bool, signedUp: bool)
      modifies this
      ensures busy == old(busy)
      ensures busyElsewhere <==> old(busy) || (connects && !free && old(depth) == 0)
      ensures signedUp <==> !old(busy) && connects && (free || old(depth) > 0) && unclaimed && commits
      ensures unlocks ==> depth == old(depth)
      ensures depth > old(depth) ==> depth == old(depth) + 1 && !old(busy) && !unlocks && connects && (free || old(depth) > 0)
      ensures depth >= old(depth)
    {
      busyElsewhere, signedUp := false, false;
      if busy { return true, false; }
      busy := true;
      var acquired := false;
      if connects {
        acquired := free || depth > 0;
        if acquired {
          depth := depth + 1;
          signedUp := unclaimed && commits;
        } else {
          busyElsewhere := true;
        }
      }
      if acquired && unlocks { depth := depth - 1; }
      busy := false;
    }
  }

  // ---------------------------------------------------------------------------------------
  // Steps.
  // ---------------------------------------------------------------------------------------

  /** `request` is the one an account was made for; a social sign-in makes one outside these routes. */
  datatype Account = Account(email: string, claimed: bool, request: Option<nat>)

  /** A replica: its busy flag (with the request that set it), which lock session it is on, how often
      that session holds the lock, and how many of those holds a failed unlock left behind. */
  datatype Replica = Replica(busy: Option<nat>, session: nat, depth: nat, stuck: nat)

  datatype Outcome = Disabled | RegistrationClosed | Refused | Busy | Answered | Crashed

  datatype Phase =
    | Arrived
    | Direct
    | Unlisted
    | Checked
    | Coded
    | Connecting
    | Locked(session: nat)
    | Claiming(session: nat)
    | Leaving(held: Option<nat>)
    | Finished(outcome: Outcome)

  datatype Request = Request(replica: nat, email: Option<string>, phase: Phase)

  /** A second look that found no account: how many had ever been made, and whether its request still
      held the lock. */
  datatype Look = Look(made: nat, held: bool)

  /** `created` is every account ever made and `live` those not deleted. The rest is history: `emptied`
      counts how often the last one was deleted, `losses` how often a lock session died under a claim,
      `coded` holds the requests that gave a right setup code and `saw` the second looks that found no
      account. */
  datatype State = State(config: Config, replicas: seq<Replica>, lock: Option<nat>, requests: seq<Request>,
                         created: seq<Account>, live: set<nat>, emptied: nat, losses: nat,
                         coded: set<nat>, saw: map<nat, Look>)

  datatype Event =
    | Arrive(replica: nat, email: Option<string>)
    | Route(r: nat)
    | FirstCheck(r: nat)
    | Code(r: nat, valid: bool)
    | TakeBusy(r: nat)
    | Acquire(r: nat, connects: bool)
    | SecondCheck(r: nat, answers: bool)
    | SignUp(r: nat, commits: bool)
    | Unlock(r: nat, answers: bool)
    | Release(r: nat)
    | Crash(replica: nat)
    | LoseSession(replica: nat)
    | Social(address: string, verified: Option<bool>)
    | DeleteAccount(account: nat)

  function Start(config: Config, replicas: nat): State {
    State(config, seq(replicas, _ => Replica(None, 0, 0, 0)), None, [], [], {}, 0, 0, {}, map[])
  }

  predicate Runs(s: State, r: nat) {
    r < |s.requests| && s.requests[r].replica < |s.replicas|
  }

  predicate Enabled(s: State, e: Event) {
    match e
    case Arrive(p, _) => p < |s.replicas|
    case Route(r) => Runs(s, r) && s.requests[r].phase.Arrived?
    case FirstCheck(r) => Runs(s, r) && s.requests[r].phase.Unlisted?
    case Code(r, _) => Runs(s, r) && s.requests[r].phase.Checked?
    case TakeBusy(r) => Runs(s, r) && s.requests[r].phase.Coded?
    case Acquire(r, _) => Runs(s, r) && s.requests[r].phase.Connecting?
    case SecondCheck(r, _) => Runs(s, r) && s.requests[r].phase.Locked?
    case SignUp(r, _) => Runs(s, r) && (s.requests[r].phase.Direct? || s.requests[r].phase.Claiming?)
    case Unlock(r, _) => Runs(s, r) && s.requests[r].phase.Leaving? && s.requests[r].phase.held.Some?
    case Release(r) => Runs(s, r) && s.requests[r].phase.Leaving? && s.requests[r].phase.held.None?
    case Crash(p) => p < |s.replicas|
    case LoseSession(p) => p < |s.replicas|
    case Social(_, _) => true
    case DeleteAccount(a) => a in s.live
  }

  function At(s: State, r: nat, phase: Phase): State
    requires r < |s.requests|
  {
    s.(requests := s.requests[r := s.requests[r].(phase := phase)])
  }

  function With(s: State, p: nat, replica: Replica): State
    requires p < |s.replicas|
  {
    s.(replicas := s.replicas[p := replica])
  }

  function Create(s: State, account: Account): State {
    s.(created := s.created + [account], live := s.live + {|s.created|})
  }

  function TryLock(s: State, r: nat): State
    requires Enabled(s, Acquire(r, true))
  {
    var p := s.requests[r].replica;
    var replica := s.replicas[p];
    if s.lock == None || s.lock == Some(p) then
      With(At(s, r, Locked(replica.session)), p, replica.(depth := replica.depth + 1)).(lock := Some(p))
    else
      At(s, r, Leaving(None))
  }

  /** The sign-up transaction with its hook: an account, or none. */
  function Register(s: State, r: nat, commits: bool): State
    requires Enabled(s, SignUp(r, commits))
  {
    var q := s.requests[r];
    var claim := q.phase.Claiming?;
    var after := At(s, r, if claim then Leaving(Some(q.phase.session)) else Finished(Answered));
    if commits && q.email.Some? && MayCreate(s.config, q.email.value, SignUpEmail, None, claim)
    then Create(after, Account(q.email.value, claim, Some(r))) else after
  }

  /** An unlock on a session that has died does nothing; one that fails leaves the lock held. */
  function Unlocked(s: State, r: nat, answers: bool): State
    requires Enabled(s, Unlock(r, answers))
  {
    var q := s.requests[r];
    var replica := s.replicas[q.replica];
    var after := At(s, r, Leaving(None));
    if q.phase.held.value != replica.session || replica.depth == 0 then after
    else if !answers then With(after, q.replica, replica.(stuck := replica.stuck + 1))
    else With(after, q.replica, replica.(depth := replica.depth - 1))
         .(lock := if replica.depth == 1 then None else s.lock)
  }

  /** The lock goes with the session that held it. */
  function EndSession(s: State, p: nat, busy: Option<nat>): State
    requires p < |s.replicas|
  {
    With(s, p, Replica(busy, s.replicas[p].session + 1, 0, 0)).(lock := if s.lock == Some(p) then None else s.lock)
  }

  function Stopped(s: State, p: nat): State {
    s.(requests := seq(|s.requests|, i requires 0 <= i < |s.requests| =>
         var q := s.requests[i]; if q.replica == p && !q.phase.Finished? then q.(phase := Finished(Crashed)) else q))
  }

  function Apply(s: State, e: Event): State
    requires Enabled(s, e)
  {
    match e
    case Arrive(p, email) => s.(requests := s.requests + [Request(p, email, Arrived)])
    case Route(r) =>
      var email := s.requests[r].email;
      At(s, r, if !s.config.localAuth then Finished(Disabled)
               else if email.Some? && EmailAllowed(s.config.rule, email.value) then Direct
               else Unlisted)
    case FirstCheck(r) => At(s, r, if s.live == {} then Checked else Finished(RegistrationClosed))
    case Code(r, valid) =>
      At(s, r, if valid then Coded else Finished(Refused)).(coded := if valid then s.coded + {r} else s.coded)
    case TakeBusy(r) =>
      var p := s.requests[r].replica;
      if s.replicas[p].busy.Some? then At(s, r, Finished(Busy))
      else With(At(s, r, Connecting), p, s.replicas[p].(busy := Some(r)))
    case Acquire(r, connects) => if connects then TryLock(s, r) else At(s, r, Leaving(None))
    case SecondCheck(r, answers) =>
      var session := s.requests[r].phase.session;
      if answers && s.live == {} then At(s, r, Claiming(session)).(saw := s.saw[r := Look(|s.created|, Holding(s, r))])
      else At(s, r, Leaving(Some(session)))
    case SignUp(r, commits) => Register(s, r, commits)
    case Unlock(r, answers) => Unlocked(s, r, answers)
    case Release(r) =>
      var p := s.requests[r].replica;
      With(At(s, r, Finished(Answered)), p, s.replicas[p].(busy := None))
    case Crash(p) => Stopped(EndSession(s, p, None), p)
    case LoseSession(p) => EndSession(s, p, s.replicas[p].busy).(losses := if UnderLock(s, p) then s.losses + 1 else s.losses)
    case Social(address, verified) =>
      if MayCreate(s.config, address, SocialCallback, verified, false) then Create(s, Account(address, false, None)) else s
    case DeleteAccount(a) =>
      s.(live := s.live - {a}, emptied := if s.live == {a} then s.emptied + 1 else s.emptied)
  }

  ghost predicate Run(s: State, events: seq<Event>, t: State)
    decreases |events|
  {
    if events == [] then t == s
    else Enabled(s, events[0]) && Run(Apply(s, events[0]), events[1..], t)
  }

  // ---------------------------------------------------------------------------------------
  // What is true in every state: the flags and the lock, the claims, the accounts.
  // ---------------------------------------------------------------------------------------

  /** Between setting the flag and clearing it. */
  predicate Using(h: Phase) {
    h.Connecting? || h.Locked? || h.Claiming? || h.Leaving?
  }

  function SessionOf(h: Phase): Option<nat> {
    match h
    case Locked(session) => Some(session)
    case Claiming(session) => Some(session)
    case Leaving(held) => held
    case _ => None
  }

  /** Holds the lock, on the session its replica is still on. */
  predicate Holding(s: State, i: nat) {
    && i < |s.requests| && s.requests[i].replica < |s.replicas|
    && SessionOf(s.requests[i].phase) == Some(s.replicas[s.requests[i].replica].session)
  }

  /** Acquired the lock, and not yet answered by the sign-up. */
  predicate Deciding(h: Phase) {
    h.Locked? || h.Claiming?
  }

  /** Whether the replica's lock session is carrying such a request. */
  predicate UnderLock(s: State, p: nat)
    requires p < |s.replicas|
  {
    var user := s.replicas[p].busy;
    user.Some? && Holding(s, user.value) && Deciding(s.requests[user.value].phase)
  }

  predicate RequestTrue(s: State, i: nat)
    requires i < |s.requests|
  {
    var q := s.requests[i];
    && q.replica < |s.replicas|
    && (Using(q.phase) ==> s.replicas[q.replica].busy == Some(i))
    && (SessionOf(q.phase).Some? ==> SessionOf(q.phase).value <= s.replicas[q.replica].session)
    && (!q.phase.Arrived? && !q.phase.Finished? ==> s.config.localAuth)
    && (q.phase.Direct? ==> q.email.Some? && EmailAllowed(s.config.rule, q.email.value))
  }

  predicate ReplicaTrue(s: State, p: nat)
    requires p < |s.replicas|
  {
    var replica := s.replicas[p];
    && (replica.busy.Some? ==> replica.busy.value < |s.requests| && s.requests[replica.busy.value].replica == p
                               && Using(s.requests[replica.busy.value].phase))
    && replica.depth == replica.stuck + (if replica.busy.Some? && Holding(s, replica.busy.value) then 1 else 0)
    && (replica.depth > 0 <==> s.lock == Some(p))
  }

  ghost predicate LockTrue(s: State) {
    && (forall i :: 0 <= i < |s.requests| ==> RequestTrue(s, i))
    && (forall p :: 0 <= p < |s.replicas| ==> ReplicaTrue(s, p))
    && (s.lock.Some? ==> s.lock.value < |s.replicas|)
  }

  function Claims(created: seq<Account>): nat {
    if created == [] then 0
    else Claims(created[..|created| - 1]) + if created[|created| - 1].claimed then 1 else 0
  }

  /** Claims under way whose lock nobody else can take. */
  function Guarded(s: State): set<nat> {
    set i | 0 <= i < |s.requests| && s.requests[i].phase.Claiming? && Holding(s, i) :: i
  }

  /** Requests that go on as if under the lock after its session died. */
  function Loose(s: State): set<nat> {
    set i | 0 <= i < |s.requests| && Deciding(s.requests[i].phase) && !Holding(s, i) :: i
  }

  /** Accounts claimed, and claims that may still land, are paid for by the deployment having been
      unclaimed: once at the start, once each time its last account went, once per lost lock. */
  predicate Bounded(s: State) {
    && |Loose(s)| <= s.losses
    && Claims(s.created) + |Guarded(s)| + |Loose(s)|
       <= s.emptied + s.losses + if s.live != {} || Guarded(s) != {} then 1 else 0
  }

  /** A request past its setup code gave a right one, and one that is claiming found no account. */
  predicate TrailTrue(s: State, r: nat)
    requires r < |s.requests|
  {
    && (s.requests[r].phase.Coded? || Using(s.requests[r].phase) ==> r in s.coded)
    && (s.requests[r].phase.Claiming? ==> r in s.saw)
    && (r in s.saw ==> s.requests[r].phase.Claiming? || s.requests[r].phase.Leaving? || s.requests[r].phase.Finished?)
  }

  /** Every account made before such a look is gone, and it was made under the lock unless that was lost. */
  predicate LookTrue(s: State, r: nat)
    requires r in s.saw
  {
    && r < |s.requests| && r in s.coded
    && s.saw[r].made <= |s.created| && (forall k :: 0 <= k < s.saw[r].made ==> k !in s.live)
    && (s.saw[r].held || s.losses > 0)
  }

  /** Who an account was made for: a request that claimed, one the rule admits, or a social sign-in it admits. */
  predicate AccountTrue(s: State, i: nat)
    requires i < |s.created|
  {
    var account := s.created[i];
    && (account.request.Some? ==>
          account.request.value < |s.requests| && s.requests[account.request.value].email == Some(account.email) && s.config.localAuth)
    && (account.request.None? ==> s.config.googleAuth)
    && (if account.claimed then account.request.Some? && account.request.value in s.saw && s.saw[account.request.value].made <= i
        else EmailAllowed(s.config.rule, account.email))
  }

  ghost predicate AccountsTrue(s: State) {
    && (forall i :: 0 <= i < |s.created| ==> AccountTrue(s, i))
    && (forall a :: a in s.live ==> a < |s.created|)
    && (forall r :: 0 <= r < |s.requests| ==> TrailTrue(s, r))
    && (forall r :: r in s.saw ==> LookTrue(s, r))
  }

  ghost predicate Invariant(s: State) {
    LockTrue(s) && Bounded(s) && AccountsTrue(s)
  }

  lemma StepKeeps(s: State, e: Event)
    requires Invariant(s) && Enabled(s, e)
    ensures Invariant(Apply(s, e))
  {
    hide Apply, LockTrue, Bounded, AccountsTrue;
    LockStep(s, e);
    AccountsStep(s, e);
    match e {
      case SecondCheck(_, _) => BoundSecondCheck(s, e);
      case SignUp(_, _) => BoundSignUp(s, e);
      case Crash(_) => BoundCrash(s, e);
      case LoseSession(_) => BoundLoseSession(s, e);
      case Arrive(_, _) => BoundOther(s, e);
      case Social(_, _) => BoundOther(s, e);
      case DeleteAccount(_) => BoundOther(s, e);
      case _ => BoundQuiet(s, e);
    }
  }

  lemma {:induction false} EveryRunKeeps(s: State, events: seq<Event>, t: State)
    requires Invariant(s) && Run(s, events, t)
    ensures Invariant(t)
    decreases |events|
  {
    hide Invariant, Apply, Enabled;
    if events != [] {
      StepKeeps(s, events[0]);
      EveryRunKeeps(Apply(s, events[0]), events[1..], t);
    }
  }

  lemma EveryStateTrue(config: Config, replicas: nat, events: seq<Event>, s: State)
    requires Run(Start(config, replicas), events, s)
    ensures Invariant(s)
  {
    var start := Start(config, replicas);
    assert Guarded(start) == {} && Loose(start) == {};
    EveryRunKeeps(start, events, s);
  }

  // ---------------------------------------------------------------------------------------
  // What the lock and the mark are for.
  // ---------------------------------------------------------------------------------------

  /** At most one account is ever claimed, over any number of replicas and any interleaving: one
      more only for each time the deployment is emptied again and each time a lock session dies
      under a request that is deciding. */
  lemma AtMostOneClaim(config: Config, replicas: nat, events: seq<Event>, s: State)
    requires Run(Start(config, replicas), events, s)
    ensures Claims(s.created) <= 1 + s.emptied + s.losses
  {
    EveryStateTrue(config, replicas, events, s);
  }

  /** The requests between their lock and their answer. */
  function Inside(s: State): set<nat> {
    set i | 0 <= i < |s.requests| && Deciding(s.requests[i].phase) :: i
  }

  /** One of them whose lock session has not died. */
  predicate InsideUnbroken(s: State, i: int) {
    0 <= i < |s.requests| && Deciding(s.requests[i].phase) && i !in Loose(s)
  }

  /** At most one request is between its lock and its answer, besides those whose session died there;
      and that one holds the lock. */
  lemma OneInside(config: Config, replicas: nat, events: seq<Event>, s: State)
    requires Run(Start(config, replicas), events, s)
    ensures forall i, j :: InsideUnbroken(s, i) && InsideUnbroken(s, j) ==> i == j && s.lock == Some(s.requests[i].replica)
    ensures forall i :: i in Inside(s) <==> 0 <= i < |s.requests| && Deciding(s.requests[i].phase)
    ensures |Inside(s)| <= 1 + |Loose(s)| <= 1 + s.losses
  {
    EveryStateTrue(config, replicas, events, s);
    hide Invariant, LockTrue, Loose;
    OneUnbroken(s);
    InsideCounted(s);
  }

  lemma OneUnbroken(s: State)
    requires Invariant(s)
    ensures forall i, j :: InsideUnbroken(s, i) && InsideUnbroken(s, j) ==> i == j && s.lock == Some(s.requests[i].replica)
  {
    forall i, j | InsideUnbroken(s, i) && InsideUnbroken(s, j) ensures i == j && s.lock == Some(s.requests[i].replica) {
      hide Bounded, AccountsTrue;
      InsideHolds(s, i);
      InsideHolds(s, j);
      OneHolder(s, i, j);
    }
  }

  lemma InsideCounted(s: State)
    requires Invariant(s)
    ensures |Inside(s)| <= 1 + |Loose(s)|
  {
    OneUnbroken(s);
    hide Invariant, Loose;
    forall i, j | i in Inside(s) - Loose(s) && j in Inside(s) - Loose(s) ensures i == j {
      assert InsideUnbroken(s, i) && InsideUnbroken(s, j);
    }
    AtMostOne(Inside(s) - Loose(s));
    hide Inside;
    Fewer(Inside(s), (Inside(s) - Loose(s)) + Loose(s));
    SumOf(Inside(s) - Loose(s), Loose(s));
  }

  lemma SumOf(a: set<nat>, b: set<nat>)
    ensures |a + b| <= |a| + |b|
  {
    assert a + b == (a - b) + b && a - b <= a;
    Fewer(a - b, a);
  }

  lemma InsideHolds(s: State, i: nat)
    requires LockTrue(s) && InsideUnbroken(s, i)
    ensures Holding(s, i) && s.lock == Some(s.requests[i].replica)
  {
    assert RequestTrue(s, i) && ReplicaTrue(s, s.requests[i].replica);
  }

  lemma AtMostOne(a: set<nat>)
    requires forall i, j :: i in a && j in a ==> i == j
    ensures |a| <= 1
  {
    if i :| i in a { assert a == {i}; }
  }

  /** Once nobody is on the claim path every flag is down, and the lock is free unless an unlock
      failed on a session that is still open. */
  lemma EveryExitCleans(config: Config, replicas: nat, events: seq<Event>, s: State)
    requires Run(Start(config, replicas), events, s)
    requires forall i :: 0 <= i < |s.requests| ==> !Using(s.requests[i].phase)
    ensures forall p :: 0 <= p < |s.replicas| ==> s.replicas[p].busy.None? && s.replicas[p].depth == s.replicas[p].stuck
    ensures s.lock == None <==> forall p :: 0 <= p < |s.replicas| ==> s.replicas[p].stuck == 0
  {
    EveryStateTrue(config, replicas, events, s);
    forall p | 0 <= p < |s.replicas|
      ensures s.replicas[p].busy.None? && s.replicas[p].depth == s.replicas[p].stuck
      ensures s.replicas[p].stuck > 0 <==> s.lock == Some(p)
    {
      assert ReplicaTrue(s, p);
    }
  }

  /**
   Every account was admitted by the rule, through local sign-up or a social sign-in that is on, or is a
   claim: made for a request that gave a right setup code and then, under the lock unless its session had
   died, found that every account ever made was gone.
   */
  lemma EveryAccountAdmitted(config: Config, replicas: nat, events: seq<Event>, s: State, i: nat)
    requires Run(Start(config, replicas), events, s) && i < |s.created|
    ensures var account := s.created[i];
      && (if account.request.Some? then s.config.localAuth else s.config.googleAuth)
      && (account.request.Some? ==>
            account.request.value < |s.requests| && s.requests[account.request.value].email == Some(account.email))
      && (!account.claimed ==> Admits(s.config.rule, account.email))
      && (account.claimed ==> account.request.Some? && account.request.value in s.coded && account.request.value in s.saw)
      && (account.claimed ==>
            var look := s.saw[account.request.value];
            look.made <= i && (forall k :: 0 <= k < look.made ==> k !in s.live) && (look.held || s.losses > 0))
  {
    EveryStateTrue(config, replicas, events, s);
    hide EmailAllowed, Admits;
    assert AccountTrue(s, i);
    EmailAllowedExactly(s.config.rule, s.created[i].email);
    if s.created[i].claimed { assert LookTrue(s, s.created[i].request.value); }
  }

  lemma {:induction false} RunThen(s: State, events: seq<Event>, t: State, e: Event)
    requires Run(s, events, t) && Enabled(t, e)
    ensures Run(s, events + [e], Apply(t, e))
    decreases |events|
  {
    hide Apply, Enabled;
    if events == [] {
      assert [e][1..] == [];
    } else {
      RunThen(Apply(s, events[0]), events[1..], t, e);
      assert (events + [e])[1..] == events[1..] + [e];
    }
  }

  predicate CanClaim(s: State, p: nat, email: string) {
    && p < |s.replicas| && s.replicas[p].busy.None? && s.replicas[p].depth == 0 && s.lock == None
    && s.live == {} && s.config.localAuth && !EmailAllowed(s.config.rule, email)
  }

  /** The state a request reaches that gets through to the claim undisturbed. */
  function Claimer(s: State, p: nat, email: string): State
    requires CanClaim(s, p, email)
  {
    var replica := s.replicas[p];
    s.(requests := s.requests + [Request(p, Some(email), Claiming(replica.session))],
       replicas := s.replicas[p := replica.(busy := Some(|s.requests|), depth := 1)],
       lock := Some(p), coded := s.coded + {|s.requests|}, saw := s.saw[|s.requests| := Look(|s.created|, true)])
  }

  lemma WalksIn(start: State, before: seq<Event>, s: State, p: nat, email: string) returns (events: seq<Event>)
    requires Run(start, before, s) && CanClaim(s, p, email)
    ensures Run(start, events, Claimer(s, p, email))
  {
    hide Run, EmailAllowed;
    var r := |s.requests|;
    var n := s;
    events := before;
    RunThen(start, events, n, Arrive(p, Some(email)));
    events, n := events + [Arrive(p, Some(email))], Apply(n, Arrive(p, Some(email)));
    RunThen(start, events, n, Route(r));
    events, n := events + [Route(r)], Apply(n, Route(r));
    RunThen(start, events, n, FirstCheck(r));
    events, n := events + [FirstCheck(r)], Apply(n, FirstCheck(r));
    RunThen(start, events, n, Code(r, true));
    events, n := events + [Code(r, true)], Apply(n, Code(r, true));
    RunThen(start, events, n, TakeBusy(r));
    events, n := events + [TakeBusy(r)], Apply(n, TakeBusy(r));
    RunThen(start, events, n, Acquire(r, true));
    events, n := events + [Acquire(r, true)], Apply(n, Acquire(r, true));
    RunThen(start, events, n, SecondCheck(r, true));
    events, n := events + [SecondCheck(r, true)], Apply(n, SecondCheck(r, true));
    assert n.requests == s.requests + [Request(p, Some(email), Claiming(s.replicas[p].session))];
    assert n == Claimer(s, p, email);
  }

  /** An unclaimed deployment whose flag and lock are free can be claimed, on any replica, by an
      address the rule does not admit; afterwards flag and lock are free again. */
  lemma ClaimWorks(start: State, before: seq<Event>, s: State, p: nat, email: string)
      returns (events: seq<Event>, n: State)
    requires Run(start, before, s) && CanClaim(s, p, email)
    ensures Run(start, events, n)
    ensures n.created == s.created + [Account(email, true, Some(|s.requests|))] && n.live == {|s.created|}
    ensures n.replicas == s.replicas && n.lock == None
  {
    hide Run, EmailAllowed;
    events := WalksIn(start, before, s, p, email);
    n := Claimer(s, p, email);
    var r := |s.requests|;
    RunThen(start, events, n, SignUp(r, true));
    events, n := events + [SignUp(r, true)], Apply(n, SignUp(r, true));
    RunThen(start, events, n, Unlock(r, true));
    events, n := events + [Unlock(r, true)], Apply(n, Unlock(r, true));
    RunThen(start, events, n, Release(r));
    events, n := events + [Release(r)], Apply(n, Release(r));
    assert n.replicas == s.replicas;
  }

  /** An address the rule admits needs no code and no lock: wherever a run has got to, it signs up. */
  lemma AdmittedSignsUp(start: State, before: seq<Event>, s: State, p: nat, email: string)
      returns (events: seq<Event>, n: State)
    requires Run(start, before, s) && p < |s.replicas| && s.config.localAuth && Admits(s.config.rule, email)
    ensures Run(start, events, n)
    ensures n.created == s.created + [Account(email, false, Some(|s.requests|))] && n.replicas == s.replicas && n.lock == s.lock
  {
    EmailAllowedExactly(s.config.rule, email);
    hide Run, EmailAllowed, Admits;
    var r := |s.requests|;
    RunThen(start, before, s, Arrive(p, Some(email)));
    events, n := before + [Arrive(p, Some(email))], Apply(s, Arrive(p, Some(email)));
    RunThen(start, events, n, Route(r));
    events, n := events + [Route(r)], Apply(n, Route(r));
    RunThen(start, events, n, SignUp(r, true));
    events, n := events + [SignUp(r, true)], Apply(n, SignUp(r, true));
  }

  /** A social sign-in makes an account exactly when it is on, the address is admitted and its provider did
      not call the address unverified. */
  lemma SocialSignsUp(s: State, address: string, verified: Option<bool>)
    ensures var n := Apply(s, Social(address, verified));
      if s.config.googleAuth && Admits(s.config.rule, address) && verified != Some(false)
      then n.created == s.created + [Account(address, false, None)] && n.live == s.live + {|s.created|}
      else n == s
  {
    EmailAllowedExactly(s.config.rule, address);
    hide EmailAllowed, Admits;
  }

  /** Once anybody has an account, an address the rule does not admit is turned away before its code is
      asked for; and where local sign-up is off, every address is. */
  lemma ClosedToOthers(start: State, before: seq<Event>, s: State, p: nat, email: Option<string>)
      returns (events: seq<Event>, n: State)
    requires Run(start, before, s) && p < |s.replicas|
    requires !s.config.localAuth || (s.live != {} && (email.Some? ==> !Admits(s.config.rule, email.value)))
    ensures Run(start, events, n)
    ensures n == s.(requests := s.requests +
      [Request(p, email, Finished(if s.config.localAuth then RegistrationClosed else Disabled))])
  {
    if email.Some? { EmailAllowedExactly(s.config.rule, email.value); }
    hide Run, EmailAllowed, Admits;
    var r := |s.requests|;
    RunThen(start, before, s, Arrive(p, email));
    events, n := before + [Arrive(p, email)], Apply(s, Arrive(p, email));
    RunThen(start, events, n, Route(r));
    events, n := events + [Route(r)], Apply(n, Route(r));
    if s.config.localAuth {
      RunThen(start, events, n, FirstCheck(r));
      events, n := events + [FirstCheck(r)], Apply(n, FirstCheck(r));
    }
  }

  /** A right code meets a claim under way: on its own replica it is told so at the flag, and on another at
      the lock, which goes only to the process that holds it already or when nobody does. */
  lemma OneClaimAtATime(s: State, r: nat)
    requires Runs(s, r)
    ensures var p := s.requests[r].replica;
      && (s.requests[r].phase.Coded? ==>
            var n := Apply(s, TakeBusy(r));
            if s.replicas[p].busy.Some? then n == At(s, r, Finished(Busy))
            else n.requests[r].phase == Connecting && n.replicas[p].busy == Some(r) && n.lock == s.lock)
      && (s.requests[r].phase.Connecting? ==>
            var n := Apply(s, Acquire(r, true));
            if s.lock.Some? && s.lock.value != p then n == At(s, r, Leaving(None))
            else n.requests[r].phase == Locked(s.replicas[p].session) && n.lock == Some(p)
                 && n.replicas[p].depth == s.replicas[p].depth + 1)
  {
  }

  /** A wrong code is refused; an unlock that fails leaves the lock with its process, and one that answers
      gives it up when it was the only hold; a crash ends a process's requests, its flag and its lock. */
  lemma WaysOut(s: State, r: nat, answers: bool, p: nat)
    ensures Enabled(s, Code(r, false)) ==> Apply(s, Code(r, false)) == At(s, r, Finished(Refused))
    ensures Enabled(s, Unlock(r, answers)) && Holding(s, r) && s.replicas[s.requests[r].replica].depth > 0 ==>
      var (n, q) := (Apply(s, Unlock(r, answers)), s.requests[r].replica);
      var (was, now) := (s.replicas[q], n.replicas[q]);
      && n.requests[r].phase == Leaving(None)
      && (!answers ==> n.lock == s.lock && now == was.(stuck := was.stuck + 1))
      && (answers ==> now == was.(depth := was.depth - 1) && n.lock == if was.depth == 1 then None else s.lock)
    ensures p < |s.replicas| ==>
      var n := Apply(s, Crash(p));
      && n.replicas[p] == Replica(None, s.replicas[p].session + 1, 0, 0) && n.lock == (if s.lock == Some(p) then None else s.lock)
      && n.created == s.created && n.live == s.live && |n.requests| == |s.requests|
      && (forall i :: 0 <= i < |s.requests| ==>
            if s.requests[i].replica == p then n.requests[i].phase.Finished? else n.requests[i] == s.requests[i])
  {
    hide EmailAllowed, MayCreate;
  }

  const LOCAL_ONLY := Config(Closed, true, false)

  lemma NothingYet(start: State)
    ensures Run(start, [], start) && Claims([]) == 0
    ensures forall email :: !EmailAllowed(Closed, email)
  {
  }

  /** A lock session that dies under a deciding request does cost the guarantee: its sign-up goes on
      without the lock, another replica takes it, and two accounts are claimed. */
  lemma LostLockTwoClaims() returns (events: seq<Event>, s: State)
    ensures Run(Start(LOCAL_ONLY, 2), events, s)
    ensures Claims(s.created) == 2 && s.emptied == 0 && s.losses == 1
  {
    hide Run, Claims, EmailAllowed;
    var start := Start(LOCAL_ONLY, 2);
    events, s := TwoInside();
    RunThen(start, events, s, SignUp(0, true));
    events, s := events + [SignUp(0, true)], Apply(s, SignUp(0, true));
    RunThen(start, events, s, SignUp(1, true));
    events, s := events + [SignUp(1, true)], Apply(s, SignUp(1, true));
    var (a, b) := (Account("a@x", true, Some(0)), Account("b@x", true, Some(1)));
    assert s.created == [] + [a] + [b];
    ClaimsAppend([], a);
    ClaimsAppend([] + [a], b);
    assert Claims([]) == 0 by { NothingYet(start); }
  }

  lemma TwoInside() returns (events: seq<Event>, s: State)
    ensures Run(Start(LOCAL_ONLY, 2), events, s)
    ensures s.config == LOCAL_ONLY && |s.replicas| == 2 && s.created == [] && s.emptied == 0 && s.losses == 1
    ensures s.requests == [Request(0, Some("a@x"), Claiming(0)), Request(1, Some("b@x"), Claiming(0))]
  {
    hide Run, Claims, EmailAllowed;
    var start := Start(LOCAL_ONLY, 2);
    NothingYet(start);
    events := WalksIn(start, [], start, 0, "a@x");
    s := Claimer(start, 0, "a@x");
    RunThen(start, events, s, LoseSession(0));
    events, s := events + [LoseSession(0)], Apply(s, LoseSession(0));
    events := WalksIn(start, events, s, 1, "b@x");
    s := Claimer(s, 1, "b@x");
  }

  /** The claim need not be the first account: one the rule admits can land after the second look. */
  lemma ClaimMayComeSecond() returns (events: seq<Event>, s: State)
    ensures Run(Start(Config(Listed({"a@x"}, {}), true, false), 1), events, s)
    ensures s.losses == 0 && s.emptied == 0 && |s.created| == 2 && !s.created[0].claimed && s.created[1].claimed
  {
    var start := Start(Config(Listed({"a@x"}, {}), true, false), 1);
    hide Run, Claims, LastAt;
    NothingYet(start);
    events := WalksIn(start, [], start, 0, "b@x");
    s := Claimer(start, 0, "b@x");
    RunThen(start, events, s, Arrive(0, Some("a@x")));
    events, s := events + [Arrive(0, Some("a@x"))], Apply(s, Arrive(0, Some("a@x")));
    RunThen(start, events, s, Route(1));
    events, s := events + [Route(1)], Apply(s, Route(1));
    RunThen(start, events, s, SignUp(1, true));
    events, s := events + [SignUp(1, true)], Apply(s, SignUp(1, true));
    RunThen(start, events, s, SignUp(0, true));
    events, s := events + [SignUp(0, true)], Apply(s, SignUp(0, true));
  }

  // ---------------------------------------------------------------------------------------
  // Every step keeps it: the flags and the lock.
  // ---------------------------------------------------------------------------------------

  function Mover(e: Event): Option<nat> {
    match e
    case Arrive(_, _) => None
    case Crash(_) => None
    case LoseSession(_) => None
    case Social(_, _) => None
    case DeleteAccount(_) => None
    case Route(r) => Some(r)
    case FirstCheck(r) => Some(r)
    case Code(r, _) => Some(r)
    case TakeBusy(r) => Some(r)
    case Acquire(r, _) => Some(r)
    case SecondCheck(r, _) => Some(r)
    case SignUp(r, _) => Some(r)
    case Unlock(r, _) => Some(r)
    case Release(r) => Some(r)
  }

  /** Steps of one request change that request, and at most the replica it runs on. */
  ghost predicate Local(s: State, n: State, r: nat, phase: Phase, replica: Replica) {
    && r < |s.requests| && s.requests[r].replica < |s.replicas|
    && n.requests == s.requests[r := s.requests[r].(phase := phase)]
    && n.replicas == s.replicas[s.requests[r].replica := replica]
    && n.config == s.config
  }

  lemma StepIsLocal(s: State, e: Event) returns (phase: Phase, replica: Replica)
    requires Enabled(s, e) && Mover(e).Some?
    ensures Local(s, Apply(s, e), Mover(e).value, phase, replica)
  {
    var (n, r) := (Apply(s, e), Mover(e).value);
    phase, replica := n.requests[r].phase, n.replicas[s.requests[r].replica];
  }

  /** What the step of one request owes: the flag and the count of holds agree with its new phase. */
  predicate OwesFlag(s: State, r: nat, phase: Phase, replica: Replica)
    requires r < |s.requests| && s.requests[r].replica < |s.replicas|
  {
    var (q, was) := (s.requests[r], s.replicas[s.requests[r].replica]);
    && (Using(q.phase) || was.busy.None? || (replica == was && !Using(phase)))
    && (if Using(phase) then replica.busy == Some(r)
        else if Using(q.phase) then replica.busy.None? else replica.busy == was.busy)
    && (!phase.Arrived? && !phase.Finished? ==> s.config.localAuth)
    && (phase.Direct? ==> q.email.Some? && EmailAllowed(s.config.rule, q.email.value))
  }

  predicate OwesLock(s: State, n: State, r: nat, phase: Phase, replica: Replica)
    requires r < |s.requests| && s.requests[r].replica < |s.replicas|
  {
    var (q, p, was) := (s.requests[r], s.requests[r].replica, s.replicas[s.requests[r].replica]);
    && replica.session == was.session
    && (SessionOf(phase).Some? ==> SessionOf(phase).value <= replica.session)
    && (Using(phase) || Using(q.phase) ==>
          replica.depth == replica.stuck + (if SessionOf(phase) == Some(replica.session) then 1 else 0))
    && (!Using(phase) && !Using(q.phase) ==> replica == was && n.lock == s.lock)
    && (n.lock == s.lock || (n.lock == None && s.lock == Some(p)) || (n.lock == Some(p) && s.lock == None))
    && (replica.depth > 0 <==> n.lock == Some(p))
  }

  predicate Owes(s: State, n: State, r: nat, phase: Phase, replica: Replica)
    requires r < |s.requests| && s.requests[r].replica < |s.replicas|
  {
    OwesFlag(s, r, phase, replica) && OwesLock(s, n, r, phase, replica)
  }

  lemma StepPaysFlag(s: State, e: Event, phase: Phase, replica: Replica)
    requires LockTrue(s) && Enabled(s, e) && Mover(e).Some?
    requires Local(s, Apply(s, e), Mover(e).value, phase, replica)
    ensures OwesFlag(s, Mover(e).value, phase, replica)
  {
    var (r, n) := (Mover(e).value, Apply(s, e));
    assert RequestTrue(s, r) && ReplicaTrue(s, s.requests[r].replica);
    assert n.requests[r].phase == phase && n.replicas[s.requests[r].replica] == replica;
  }

  lemma RegisterShape(s: State, r: nat, commits: bool)
    requires Enabled(s, SignUp(r, commits))
    ensures var n := Register(s, r, commits);
      && n.replicas == s.replicas && n.lock == s.lock
      && n.requests == s.requests[r := s.requests[r].(phase :=
           if s.requests[r].phase.Claiming? then Leaving(Some(s.requests[r].phase.session)) else Finished(Answered))]
  {
    hide MayCreate;
  }

  lemma LockMoves(s: State, e: Event, phase: Phase, replica: Replica)
    requires LockTrue(s) && Enabled(s, e) && (e.Acquire? || e.Unlock?)
    requires Local(s, Apply(s, e), e.r, phase, replica)
    ensures OwesLock(s, Apply(s, e), e.r, phase, replica)
  {
    var (r, n) := (e.r, Apply(s, e));
    assert RequestTrue(s, r) && ReplicaTrue(s, s.requests[r].replica);
    assert n.requests[r].phase == phase && n.replicas[s.requests[r].replica] == replica;
  }

  lemma LockStays(s: State, e: Event, phase: Phase, replica: Replica)
    requires LockTrue(s) && Enabled(s, e) && Mover(e).Some? && !e.Acquire? && !e.Unlock?
    requires Local(s, Apply(s, e), Mover(e).value, phase, replica)
    ensures OwesLock(s, Apply(s, e), Mover(e).value, phase, replica)
  {
    hide EmailAllowed, MayCreate, UnderLock, Stopped, EndSession, Create, TryLock, Unlocked;
    if e.SignUp? { RegisterShape(s, e.r, e.commits); }
    hide Register;
    var (r, n) := (Mover(e).value, Apply(s, e));
    assert RequestTrue(s, r) && ReplicaTrue(s, s.requests[r].replica);
    assert n.requests[r].phase == phase && n.replicas[s.requests[r].replica] == replica;
  }

  lemma StepPaysLock(s: State, e: Event, phase: Phase, replica: Replica)
    requires LockTrue(s) && Enabled(s, e) && Mover(e).Some?
    requires Local(s, Apply(s, e), Mover(e).value, phase, replica)
    ensures OwesLock(s, Apply(s, e), Mover(e).value, phase, replica)
  {
    hide LockTrue, Enabled, Apply, Local, OwesLock;
    if e.Acquire? || e.Unlock? { LockMoves(s, e, phase, replica); } else { LockStays(s, e, phase, replica); }
  }

  lemma LocalKeeps(s: State, n: State, r: nat, phase: Phase, replica: Replica)
    requires LockTrue(s) && Local(s, n, r, phase, replica) && Owes(s, n, r, phase, replica)
    ensures LockTrue(n)
  {
    assert RequestTrue(s, r) && ReplicaTrue(s, s.requests[r].replica);
    forall i | 0 <= i < |n.requests| ensures RequestTrue(n, i) { assert RequestTrue(s, i); }
    forall p | 0 <= p < |n.replicas| ensures ReplicaTrue(n, p) { assert ReplicaTrue(s, p); }
  }

  lemma LockStep(s: State, e: Event)
    requires LockTrue(s) && Enabled(s, e)
    ensures LockTrue(Apply(s, e))
  {
    if Mover(e).Some? {
      var phase, replica := StepIsLocal(s, e);
      StepPaysFlag(s, e, phase, replica);
      StepPaysLock(s, e, phase, replica);
      LocalKeeps(s, Apply(s, e), Mover(e).value, phase, replica);
    } else {
      OtherKeeps(s, e);
    }
  }

  lemma OtherRequests(s: State, e: Event)
    requires LockTrue(s) && Enabled(s, e) && Mover(e).None?
    ensures forall i :: 0 <= i < |Apply(s, e).requests| ==> RequestTrue(Apply(s, e), i)
  {
    var n := Apply(s, e);
    forall i | 0 <= i < |n.requests| ensures RequestTrue(n, i) { assert i < |s.requests| ==> RequestTrue(s, i); }
  }

  lemma OtherKeeps(s: State, e: Event)
    requires LockTrue(s) && Enabled(s, e) && Mover(e).None?
    ensures LockTrue(Apply(s, e))
  {
    var n := Apply(s, e);
    OtherRequests(s, e);
    forall p | 0 <= p < |n.replicas| ensures ReplicaTrue(n, p) {
      assert ReplicaTrue(s, p);
      assert s.replicas[p].busy.Some? ==> RequestTrue(s, s.replicas[p].busy.value);
    }
  }

  // ---------------------------------------------------------------------------------------
  // Every step keeps it: who was let in.
  // ---------------------------------------------------------------------------------------

  /** Only one request anywhere holds the advisory lock. */
  lemma OneHolder(s: State, i: nat, j: nat)
    requires LockTrue(s) && Holding(s, i) && Holding(s, j)
    ensures i == j
  {
    assert RequestTrue(s, i) && RequestTrue(s, j);
    assert ReplicaTrue(s, s.requests[i].replica) && ReplicaTrue(s, s.requests[j].replica);
  }

  lemma ClaimsAppend(created: seq<Account>, account: Account)
    ensures Claims(created + [account]) == Claims(created) + if account.claimed then 1 else 0
  {
    assert (created + [account])[..|created|] == created;
  }

  function Without(a: set<nat>, r: nat): set<nat> {
    a - {r}
  }

  lemma Shifted(a: set<nat>, b: set<nat>, r: nat)
    requires Without(a, r) == Without(b, r)
    ensures |b| == |a| - (if r in a then 1 else 0) + (if r in b then 1 else 0)
  {
    var rest := Without(a, r);
    if r in a { assert a == rest + {r}; } else { assert a == rest; }
    if r in b { assert b == rest + {r}; } else { assert b == rest; }
  }

  /** Outside its own request, a step on an unchanged session changes neither set. */
  lemma SetsLocal(s: State, n: State, r: nat, phase: Phase, replica: Replica)
    requires Local(s, n, r, phase, replica) && replica.session == s.replicas[s.requests[r].replica].session
    ensures Without(Guarded(n), r) == Without(Guarded(s), r) && Without(Loose(n), r) == Without(Loose(s), r)
    ensures Holding(n, r) <==> SessionOf(phase) == Some(replica.session)
  {
    forall i | 0 <= i < |s.requests| && i != r ensures Holding(n, i) <==> Holding(s, i) {}
  }

  lemma GuardedOne(s: State, r: nat)
    requires LockTrue(s) && Holding(s, r)
    ensures Without(Guarded(s), r) == {}
  {
    forall i | i in Guarded(s) ensures i == r { OneHolder(s, i, r); }
  }

  /** The two sets before and after a step of request `r`, counted. */
  lemma SetsStep(s: State, e: Event) returns (phase: Phase, replica: Replica)
    requires LockTrue(s) && Enabled(s, e) && Mover(e).Some?
    ensures var (n, r) := (Apply(s, e), Mover(e).value);
      && Local(s, n, r, phase, replica) && n.requests[r].phase == phase
      && Without(Guarded(n), r) == Without(Guarded(s), r) && Without(Loose(n), r) == Without(Loose(s), r)
      && (r in Guarded(n) <==> phase.Claiming? && SessionOf(phase) == Some(replica.session))
      && (r in Loose(n) <==> Deciding(phase) && SessionOf(phase) != Some(replica.session))
      && (Holding(s, r) <==> SessionOf(s.requests[r].phase) == Some(replica.session))
      && |Guarded(n)| == |Guarded(s)| - (if r in Guarded(s) then 1 else 0) + (if r in Guarded(n) then 1 else 0)
      && |Loose(n)| == |Loose(s)| - (if r in Loose(s) then 1 else 0) + (if r in Loose(n) then 1 else 0)
  {
    phase, replica := StepIsLocal(s, e);
    StepPaysLock(s, e, phase, replica);
    hide Apply, LockTrue;
    var (n, r) := (Apply(s, e), Mover(e).value);
    SetsLocal(s, n, r, phase, replica);
    Shifted(Guarded(s), Guarded(n), r);
    Shifted(Loose(s), Loose(n), r);
  }

  lemma BoundSecondCheck(s: State, e: Event)
    requires Invariant(s) && Enabled(s, e) && e.SecondCheck?
    ensures Bounded(Apply(s, e))
  {
    var phase, replica := SetsStep(s, e);
    if Holding(s, e.r) { GuardedOne(s, e.r); }
  }

  /** What a sign-up does to the accounts: nothing, or one more, a claim only for a claiming request. */
  lemma SignUpMakes(s: State, e: Event)
    requires Enabled(s, e) && e.SignUp?
    ensures var n := Apply(s, e);
      && n.emptied == s.emptied && n.losses == s.losses && !Deciding(n.requests[e.r].phase)
      && ((n.live == s.live && Claims(n.created) == Claims(s.created))
          || (n.live != {} && Claims(n.created) == Claims(s.created) + if s.requests[e.r].phase.Claiming? then 1 else 0))
  {
    hide EmailAllowed, Claims;
    var n := Apply(s, e);
    if n.created != s.created {
      ClaimsAppend(s.created, n.created[|s.created|]);
      assert |s.created| in n.live;
    }
  }

  lemma BoundSignUp(s: State, e: Event)
    requires Invariant(s) && Enabled(s, e) && e.SignUp?
    ensures Bounded(Apply(s, e))
  {
    hide Claims, Apply, AccountsTrue;
    var phase, replica := SetsStep(s, e);
    SignUpMakes(s, e);
    var claiming := s.requests[e.r].phase.Claiming?;
    assert e.r in Guarded(s) || e.r in Loose(s) <==> claiming by { assert Enabled(s, e); }
    if Holding(s, e.r) { GuardedOne(s, e.r); }
    hide Guarded, Loose, LockTrue, Enabled;
  }

  /** The other steps touch no account, and let nobody into the claim. */
  lemma QuietMakes(s: State, e: Event)
    requires LockTrue(s) && Enabled(s, e) && Mover(e).Some? && !e.SecondCheck? && !e.SignUp?
    ensures var n := Apply(s, e);
      && n.emptied == s.emptied && n.losses == s.losses && n.created == s.created && n.live == s.live
      && !s.requests[Mover(e).value].phase.Claiming? && !n.requests[Mover(e).value].phase.Claiming?
      && (n.requests[Mover(e).value].phase.Locked? ==> Holding(n, Mover(e).value))
      && !s.requests[Mover(e).value].phase.Locked?
  {
  }

  lemma BoundQuiet(s: State, e: Event)
    requires Invariant(s) && Enabled(s, e) && Mover(e).Some? && !e.SecondCheck? && !e.SignUp?
    ensures Bounded(Apply(s, e))
  {
    hide Claims, Apply, AccountsTrue;
    var phase, replica := SetsStep(s, e);
    QuietMakes(s, e);
    hide LockTrue, Enabled;
  }

  lemma Fewer(a: set<nat>, b: set<nat>)
    requires a <= b
    ensures |a| <= |b| && (a != b ==> |a| < |b|)
  {
    assert b == a + (b - a) && a !! (b - a);
  }

  lemma BoundCrash(s: State, e: Event)
    requires Invariant(s) && Enabled(s, e) && e.Crash?
    ensures Bounded(Apply(s, e))
  {
    var n := Apply(s, e);
    forall i | 0 <= i < |s.requests| && Deciding(n.requests[i].phase) ensures Holding(n, i) == Holding(s, i) {
      assert RequestTrue(s, i);
    }
    Fewer(Guarded(n), Guarded(s));
    Fewer(Loose(n), Loose(s));
  }

  lemma BoundLoseSession(s: State, e: Event)
    requires Invariant(s) && Enabled(s, e) && e.LoseSession?
    ensures Bounded(Apply(s, e))
  {
    var (n, p) := (Apply(s, e), e.replica);
    forall i | 0 <= i < |s.requests| ensures Holding(n, i) <==> Holding(s, i) && s.requests[i].replica != p {
      assert RequestTrue(s, i);
    }
    assert Guarded(n) <= Guarded(s);
    Fewer(Guarded(n), Guarded(s));
    if UnderLock(s, p) {
      var r := s.replicas[p].busy.value;
      assert Loose(n) == Loose(s) + {r} by {
        forall i | 0 <= i < |s.requests| && Holding(s, i) ensures i == r { OneHolder(s, i, r); }
        assert RequestTrue(s, r) && ReplicaTrue(s, p);
      }
    } else {
      assert Loose(n) == Loose(s) by {
        forall i | 0 <= i < |s.requests| && Holding(s, i) && Deciding(s.requests[i].phase)
          ensures s.requests[i].replica != p { assert RequestTrue(s, i); }
      }
    }
  }

  lemma OtherSets(s: State, e: Event)
    requires LockTrue(s) && Enabled(s, e) && (e.Arrive? || e.Social? || e.DeleteAccount?)
    ensures Guarded(Apply(s, e)) == Guarded(s) && Loose(Apply(s, e)) == Loose(s)
  {
    hide MayCreate;
    var n := Apply(s, e);
    forall i | 0 <= i < |s.requests| ensures Holding(n, i) == Holding(s, i) && n.requests[i] == s.requests[i] {}
  }

  lemma OtherMakes(s: State, e: Event)
    requires Enabled(s, e) && (e.Arrive? || e.Social? || e.DeleteAccount?)
    ensures var n := Apply(s, e);
      && n.losses == s.losses && Claims(n.created) == Claims(s.created)
      && (n.live == {} && s.live != {} ==> n.emptied == s.emptied + 1)
      && (n.emptied == s.emptied || n.emptied == s.emptied + 1)
  {
    hide MayCreate, Claims;
    var n := Apply(s, e);
    if n.created != s.created {
      ClaimsAppend(s.created, n.created[|s.created|]);
      assert |s.created| in n.live;
    }
  }

  lemma BoundOther(s: State, e: Event)
    requires Invariant(s) && Enabled(s, e) && (e.Arrive? || e.Social? || e.DeleteAccount?)
    ensures Bounded(Apply(s, e))
  {
    hide Claims, Apply, Guarded, Loose, LockTrue, AccountsTrue;
    OtherSets(s, e);
    OtherMakes(s, e);
  }

  /** A request's own step leaves its trail. */
  lemma TrailMoved(s: State, e: Event)
    requires Enabled(s, e) && Mover(e).Some? && Mover(e).value < |s.requests| && TrailTrue(s, Mover(e).value)
    ensures var n := Apply(s, e); Mover(e).value < |n.requests| && TrailTrue(n, Mover(e).value)
  {
    hide EmailAllowed, MayCreate, UnderLock, Holding;
    if e.SignUp? { RegisterShape(s, e.r, e.commits); }
  }

  /** And touches nobody else's. */
  lemma TrailOthers(s: State, e: Event, r: nat)
    requires Enabled(s, e) && r < |s.requests| && Mover(e) != Some(r)
    ensures var n := Apply(s, e);
      && r < |n.requests| && (n.requests[r].phase == s.requests[r].phase || n.requests[r].phase.Finished?)
      && (r in s.coded ==> r in n.coded) && (r in n.saw <==> r in s.saw)
  {
    hide EmailAllowed, MayCreate, UnderLock, Holding;
  }

  lemma TrailStep(s: State, e: Event)
    requires Invariant(s) && Enabled(s, e)
    ensures forall r :: 0 <= r < |Apply(s, e).requests| ==> TrailTrue(Apply(s, e), r)
  {
    hide Bounded, LockTrue, Apply, AccountTrue;
    var n := Apply(s, e);
    forall r | 0 <= r < |n.requests| ensures TrailTrue(n, r) {
      if r < |s.requests| {
        assert TrailTrue(s, r);
        if Mover(e) == Some(r) { TrailMoved(s, e); } else { TrailOthers(s, e, r); }
      } else {
        assert r in s.saw ==> LookTrue(s, r);
        Newcomer(s, e, r);
      }
    }
  }

  lemma Newcomer(s: State, e: Event, r: nat)
    requires Enabled(s, e) && |s.requests| <= r < |Apply(s, e).requests| && r !in s.saw
    ensures Apply(s, e).requests[r].phase.Arrived? && r !in Apply(s, e).saw
  {
    hide MayCreate, UnderLock, Holding;
  }

  /** A look that found no account, made with the lock in hand unless a session was lost. */
  lemma NewLook(s: State, e: Event)
    requires Invariant(s) && Enabled(s, e) && e.SecondCheck? && e.answers && s.live == {}
    ensures LookTrue(Apply(s, e), e.r)
  {
    hide AccountTrue, LookTrue, LockTrue;
    assert TrailTrue(s, e.r) && e.r in s.coded;
    if !Holding(s, e.r) {
      assert e.r in Loose(s);
    }
    hide Loose, Holding;
    var n := Apply(s, e);
    LookMade(n, e.r);
  }

  lemma LookMade(n: State, r: nat)
    requires r in n.saw && r < |n.requests| && r in n.coded
    requires n.saw[r].made == |n.created| && n.live == {} && (n.saw[r].held || n.losses > 0)
    ensures LookTrue(n, r)
  {
  }

  lemma LookStep(s: State, e: Event)
    requires Invariant(s) && Enabled(s, e)
    ensures forall r :: r in Apply(s, e).saw ==> LookTrue(Apply(s, e), r)
  {
    hide EmailAllowed, MayCreate, LockTrue, UnderLock, Holding, Bounded, AccountTrue, TrailTrue;
    var n := Apply(s, e);
    forall r | r in n.saw ensures LookTrue(n, r) {
      if e.SecondCheck? && e.answers && s.live == {} && r == e.r {
        NewLook(s, e);
      } else {
        assert LookTrue(s, r);
      }
    }
  }

  /** The account a sign-up makes. */
  lemma SignedUp(s: State, e: Event)
    requires Invariant(s) && Enabled(s, e) && e.SignUp? && |Apply(s, e).created| > |s.created|
    ensures AccountTrue(Apply(s, e), |s.created|)
  {
    hide EmailAllowed, Bounded, Holding, ReplicaTrue;
    assert RequestTrue(s, e.r) && TrailTrue(s, e.r);
    if s.requests[e.r].phase.Claiming? { assert LookTrue(s, e.r); }
  }

  lemma AccountStep(s: State, e: Event)
    requires Invariant(s) && Enabled(s, e)
    ensures forall i :: 0 <= i < |Apply(s, e).created| ==> AccountTrue(Apply(s, e), i)
    ensures forall a :: a in Apply(s, e).live ==> a < |Apply(s, e).created|
  {
    hide EmailAllowed, Bounded, UnderLock, Holding, LockTrue, LookTrue;
    var n := Apply(s, e);
    assert e.SecondCheck? ==> e.r !in s.saw by { if e.SecondCheck? { assert TrailTrue(s, e.r); } }
    hide TrailTrue;
    forall i | 0 <= i < |n.created| ensures AccountTrue(n, i) {
      if i < |s.created| {
        assert AccountTrue(s, i);
      } else if e.SignUp? {
        SignedUp(s, e);
      }
    }
  }

  lemma AccountsStep(s: State, e: Event)
    requires Invariant(s) && Enabled(s, e)
    ensures AccountsTrue(Apply(s, e))
  {
    hide Apply, Enabled, Invariant, AccountTrue, TrailTrue, LookTrue;
    TrailStep(s, e);
    LookStep(s, e);
    AccountStep(s, e);
  }
}
