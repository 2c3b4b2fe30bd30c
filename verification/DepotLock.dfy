/**
  The depot lease lock (apps/api/src/lib/depot-lock.ts): a Redis key with a time to live, taken with
  SET NX, renewed and released by scripts that compare the holder's token.  Commands travel to Redis
  and may arrive late, after the run that sent them has ended or crashed, or not at all.
 */
module DepotLock {

  import opened Wrappers

  type Token = nat

  datatype Key = Key(token: Token, expiry: nat)

  datatype Command = Renew(token: Token) | Release(token: Token)

  /** A run that took the lock: the interval that renews it, and how long its last landed renewal lasts. */
  datatype Run = Run(renewing: bool, until: nat)

  datatype State = State(
    now: nat,
    key: Option<Key>,
    runs: map<Token, Run>,
    inFlight: multiset<Command>,
    used: set<Token>)

  datatype Action =
    | Tick(ms: nat)
    | Acquire(token: Token, replied: bool)   // SET NX PX, whose reply may be lost
    | SendRenew(token: Token)
    | Finish(token: Token)                   // the run calls release()
    | Crash(token: Token)
    | Deliver(command: Command, replied: bool)
    | Lose(command: Command)

  /** Redis no longer sees an expired key. */
  predicate Live(s: State) { s.key.Some? && s.now < s.key.value.expiry }

  predicate Holds(s: State, t: Token) { Live(s) && s.key.value.token == t }

  predicate Enabled(s: State, a: Action) {
    match a
    case Tick(_) => true
    case Acquire(token, _) => token !in s.used
    case SendRenew(token) => token in s.runs && s.runs[token].renewing
    case Finish(token) => token in s.runs
    case Crash(token) => token in s.runs
    case Deliver(command, _) => command in s.inFlight
    case Lose(command) => command in s.inFlight
  }

  /** The two scripts: nothing happens unless the key still holds the sender's token. */
  function KeyAfter(s: State, command: Command, ttl: nat): Option<Key> {
    if !Holds(s, command.token) then s.key
    else if command.Renew? then Some(Key(command.token, s.now + ttl))
    else None
  }

  /** A landed renewal covers its run anew; an answer of 0 stops the interval. */
  function RunsAfter(s: State, command: Command, replied: bool, ttl: nat): map<Token, Run> {
    if !command.Renew? || command.token !in s.runs then s.runs
    else if Holds(s, command.token) then s.runs[command.token := s.runs[command.token].(until := s.now + ttl)]
    else if replied then s.runs[command.token := s.runs[command.token].(renewing := false)]
    else s.runs
  }

  function Step(s: State, a: Action, ttl: nat): State {
    match a
    case Tick(ms) => s.(now := s.now + ms)
    case Acquire(token, replied) =>
      if Live(s) then s.(used := s.used + {token})
      else s.(used := s.used + {token}, key := Some(Key(token, s.now + ttl)),
              runs := if replied then s.runs[token := Run(true, s.now + ttl)] else s.runs)
    case SendRenew(token) => s.(inFlight := s.inFlight + multiset{Renew(token)})
    case Finish(token) => s.(runs := s.runs - {token}, inFlight := s.inFlight + multiset{Release(token)})
    case Crash(token) => s.(runs := s.runs - {token})
    case Deliver(command, replied) =>
      s.(inFlight := s.inFlight - multiset{command}, key := KeyAfter(s, command, ttl), runs := RunsAfter(s, command, replied, ttl))
    case Lose(command) => s.(inFlight := s.inFlight - multiset{command})
  }

  ghost predicate RunOf(s: State, actions: seq<Action>, ttl: nat, t: State)
    decreases |actions|
  {
    if actions == [] then s == t
    else Enabled(s, actions[0]) && RunOf(Step(s, actions[0], ttl), actions[1..], ttl, t)
  }

  // ----- a lapsed lease is over

  predicate Sends(a: Action, t: Token) { a.Deliver? && a.command.token == t }

  lemma LapsedStep(s: State, a: Action, ttl: nat, t: Token)
    requires Enabled(s, a) && t in s.used && !Holds(s, t)
    ensures t in Step(s, a, ttl).used && !Holds(Step(s, a, ttl), t)
    ensures Sends(a, t) ==> Step(s, a, ttl).key == s.key
  {}

  /**
    Once a holder's lease has lapsed, nothing it sent or sends, however late it arrives, brings the
    lease back; and none of it touches the key, whoever holds that by then.
   */
  lemma {:induction false} LapsedForGood(s: State, actions: seq<Action>, ttl: nat, t: State, token: Token)
    requires RunOf(s, actions, ttl, t) && token in s.used && !Holds(s, token)
    ensures !Holds(t, token) && token in t.used
    ensures forall a | Enabled(t, a) && Sends(a, token) :: Step(t, a, ttl).key == t.key
    decreases |actions|
  {
    if actions == [] {
      forall a | Enabled(t, a) && Sends(a, token)
        ensures Step(t, a, ttl).key == t.key
      {
        LapsedStep(t, a, ttl, token);
      }
    } else {
      LapsedStep(s, actions[0], ttl, token);
      hide Step, Enabled, Holds;
      LapsedForGood(Step(s, actions[0], ttl), actions[1..], ttl, t, token);
    }
  }

  // ----- at most one holder

  /** The run, while it lasts, had its last renewal land less than one time to live ago. */
  predicate Timely(s: State, t: Token) { t in s.runs ==> s.now < s.runs[t].until }

  ghost predicate TimelyAlong(s: State, actions: seq<Action>, ttl: nat, t: Token)
    decreases |actions|
  {
    Timely(s, t) && (actions != [] ==> TimelyAlong(Step(s, actions[0], ttl), actions[1..], ttl, t))
  }

  /** A running holder's key is its own, with the expiry of its last landed renewal. */
  ghost predicate OwnsKey(s: State, t: Token) { t in s.runs ==> s.key == Some(Key(t, s.runs[t].until)) }

  lemma OwnsKeyKept(s: State, a: Action, ttl: nat, t: Token)
    requires OwnsKey(s, t) && ReleasesOver(s) && Timely(s, t) && Enabled(s, a)
    ensures OwnsKey(Step(s, a, ttl), t)
  {}

  /** A release is sent once, when its run ends. */
  ghost predicate ReleasesOver(s: State) {
    && (forall t :: Release(t) in s.inFlight ==> t !in s.runs && t in s.used)
    && (forall t :: t in s.runs ==> t in s.used)
  }

  lemma ReleasesOverKept(s: State, a: Action, ttl: nat)
    requires ReleasesOver(s) && Enabled(s, a)
    ensures ReleasesOver(Step(s, a, ttl))
  {
    hide Step, Enabled;
    forall t: Token
      ensures Release(t) in Step(s, a, ttl).inFlight ==> t !in Step(s, a, ttl).runs && t in Step(s, a, ttl).used
      ensures t in Step(s, a, ttl).runs ==> t in Step(s, a, ttl).used
    {
      ReleaseOverKept(s, a, ttl, t);
    }
  }

  lemma ReleaseOverKept(s: State, a: Action, ttl: nat, t: Token)
    requires ReleasesOver(s) && Enabled(s, a)
    ensures Release(t) in Step(s, a, ttl).inFlight ==> t !in Step(s, a, ttl).runs && t in Step(s, a, ttl).used
    ensures t in Step(s, a, ttl).runs ==> t in Step(s, a, ttl).used
  {
    hide KeyAfter, Live, Holds;
  }

  lemma {:induction false} AlongRun(s: State, actions: seq<Action>, ttl: nat, u: State, t: Token)
    requires OwnsKey(s, t) && ReleasesOver(s) && RunOf(s, actions, ttl, u) && TimelyAlong(s, actions, ttl, t)
    ensures OwnsKey(u, t) && Timely(u, t)
    decreases |actions|
  {
    if actions != [] {
      OwnsKeyKept(s, actions[0], ttl, t);
      ReleasesOverKept(s, actions[0], ttl);
      hide Step, Enabled, OwnsKey, ReleasesOver, Timely;
      AlongRun(Step(s, actions[0], ttl), actions[1..], ttl, u, t);
    }
  }

  const START := State(0, None, map[], multiset{}, {})

  /**
    In every run: a running holder whose own renewals landed within one time to live of each other
    owns the key, and nobody else can take it; whatever became of other holders.
   */
  lemma TimelyHolderOwnsKey(actions: seq<Action>, ttl: nat, s: State, t: Token, u: Token)
    requires RunOf(START, actions, ttl, s) && TimelyAlong(START, actions, ttl, t) && t in s.runs
    ensures Holds(s, t)
    ensures u !in s.used ==> Step(s, Acquire(u, true), ttl).runs == s.runs
  {
    AlongRun(START, actions, ttl, s, t);
  }

  /** So at most one such holder runs at a time. */
  lemma AtMostOneHolder(actions: seq<Action>, ttl: nat, s: State, t: Token, u: Token)
    requires RunOf(START, actions, ttl, s)
    requires TimelyAlong(START, actions, ttl, t) && t in s.runs && TimelyAlong(START, actions, ttl, u) && u in s.runs
    ensures t == u
  {
    hide RunOf, TimelyAlong, Step;
    TimelyHolderOwnsKey(actions, ttl, s, t, u);
    TimelyHolderOwnsKey(actions, ttl, s, u, t);
  }

  /**
    Up to the moment a lease lapses the condition is also necessary: beside a holder that owns the
    key, a second one gets in exactly when the holder's last landed renewal is over.
   */
  lemma SecondHolderIffLapsed(s: State, ttl: nat, t: Token, u: Token)
    requires t in s.runs && OwnsKey(s, t) && u !in s.used && u !in s.runs
    ensures u in Step(s, Acquire(u, true), ttl).runs <==> !Timely(s, t)
  {}

  // ----- the lock does change hands

  /** SET NX takes the key exactly when it is free, for one time to live; the caller runs if it hears of it. */
  lemma AcquiredExactlyWhenFree(s: State, ttl: nat, u: Token, replied: bool)
    requires Enabled(s, Acquire(u, replied)) && u !in s.runs
    ensures var t := Step(s, Acquire(u, replied), ttl);
            && t.key == (if Live(s) then s.key else Some(Key(u, s.now + ttl)))
            && (u in t.runs <==> !Live(s) && replied)
            && (u in t.runs ==> t.runs[u] == Run(true, s.now + ttl))
            && t.runs - {u} == s.runs && t.inFlight == s.inFlight && t.now == s.now && u in t.used
  {}

  /** A renewal that lands in time gives the holder a whole time to live from then on. */
  lemma RenewalExtends(s: State, ttl: nat, t: Token, replied: bool)
    requires Enabled(s, Deliver(Renew(t), replied)) && Holds(s, t)
    ensures var r := Step(s, Deliver(Renew(t), replied), ttl);
            && r.key == Some(Key(t, s.now + ttl))
            && r.runs == (if t in s.runs then s.runs[t := s.runs[t].(until := s.now + ttl)] else s.runs)
  {}

  /** One that lands too late changes no key, and if its answer arrives the run sends no more. */
  lemma LateRenewalStops(s: State, ttl: nat, t: Token)
    requires Enabled(s, Deliver(Renew(t), true)) && !Holds(s, t)
    ensures var r := Step(s, Deliver(Renew(t), true), ttl);
            r.key == s.key && !Enabled(r, SendRenew(t)) && (t in s.runs ==> t in r.runs)
  {}

  /** A holder that finishes sends a release; when it is delivered, the key is free and the next one gets in. */
  lemma FinishedLockIsFree(s: State, ttl: nat, t: Token, u: Token, replied: bool)
    requires t in s.runs && Holds(s, t) && u !in s.used && u !in s.runs && ttl > 0
    ensures Enabled(s, Finish(t))
    ensures var ended := Step(s, Finish(t), ttl);
            && t !in ended.runs && ended.key == s.key && Enabled(ended, Deliver(Release(t), replied))
            && var freed := Step(ended, Deliver(Release(t), replied), ttl);
               && freed.key == None && freed.runs == ended.runs && freed.inFlight == s.inFlight
               && Holds(Step(freed, Acquire(u, true), ttl), u)
  {
    var ended := Step(s, Finish(t), ttl);
    assert Release(t) in ended.inFlight;
    assert ended.inFlight - multiset{Release(t)} == s.inFlight;
  }

  /** After a crash nothing is sent; the key is free once its time to live is over. */
  lemma CrashedLockExpires(s: State, ttl: nat, t: Token, u: Token, ms: nat)
    requires t in s.runs && Holds(s, t) && s.now + ms >= s.key.value.expiry && u !in s.used && u !in s.runs && ttl > 0
    ensures Enabled(s, Crash(t))
    ensures var crashed := Step(s, Crash(t), ttl);
            && t !in crashed.runs && crashed.key == s.key && crashed.inFlight == s.inFlight
            && Enabled(crashed, Tick(ms)) && Enabled(Step(crashed, Tick(ms), ttl), Acquire(u, true))
            && Holds(Step(Step(crashed, Tick(ms), ttl), Acquire(u, true), ttl), u)
  {}

  /** A running holder renews by sending one more command; a lost command is one less. */
  lemma CommandsCount(s: State, ttl: nat, t: Token, c: Command, replied: bool)
    requires t in s.runs && s.runs[t].renewing && c in s.inFlight
    ensures Enabled(s, SendRenew(t)) && Step(s, SendRenew(t), ttl) == s.(inFlight := s.inFlight + multiset{Renew(t)})
    ensures Enabled(s, Lose(c)) && Enabled(s, Deliver(c, replied))
    ensures Step(s, Lose(c), ttl) == s.(inFlight := s.inFlight - multiset{c})
    ensures Step(s, Deliver(c, replied), ttl).inFlight == s.inFlight - multiset{c}
  {}
}
