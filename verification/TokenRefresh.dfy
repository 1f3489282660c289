/**
 Refreshing a rotating credential under a row lock (sau/tokens.py), for any number of concurrent
 callers. A refresh token can be used once (section 6 of RFC 6749 lets the server rotate it); the
 provider and its tokens are part of the state, and so are the ways a rotation can get lost.
 Instants are in seconds.
 */
module TokenRefresh {
  import opened Options

  const MARGIN := 600

  datatype Row = Row(access: string, refresh: Option<string>, expiresAt: Option<int>)

  /** Credentials as a refresh answers with them. */
  datatype Grant = Grant(access: string, refresh: string, lifetime: int)

  datatype Pc =
    | Waiting                                // for the row lock
    | Locked                                 // the row is read and locked
    | Asking                                 // about to present the refresh token
    | Granted(grant: Grant)                  // the provider has answered
    | Stamped(grant: Grant, at: int)         // the row's fields are set, the commit is to come
    | Done(token: string, expiresAt: Option<int>, at: int, renewed: bool)
    | Failed

  datatype Caller = Caller(canRefresh: bool, pc: Pc)

  /** A refresh that was committed: when the row was stamped, and for how long. */
  datatype Stamp = Stamp(at: int, lifetime: int)

  /** `current` is the only refresh token the provider accepts; `issued` are all there ever were. */
  datatype State = State(clock: int, row: Option<Row>, holder: Option<nat>, callers: map<nat, Caller>,
                         current: string, issued: set<string>, stamps: seq<Stamp>)

  datatype Event =
    | Pass(to: int)
    | Call(c: nat, canRefresh: bool)
    | Lock(c: nat)
    | Check(c: nat)
    | Refuse(c: nat)                         // the refresh fails and nothing was rotated
    | Exchange(c: nat, grant: Grant)
    | AnswerLost(c: nat, refresh: string)    // the provider has rotated, its answer never arrives
    | SetFields(c: nat)
    | Commit(c: nat)
    | CommitFails(c: nat)
    | Crash(c: nat)

  predicate InLock(pc: Pc) {
    pc.Locked? || pc.Asking? || pc.Granted? || pc.Stamped?
  }

  /** `expires_within(600)`. */
  predicate Expiring(row: Row, now: int) {
    row.expiresAt.Some? && row.expiresAt.value - now < MARGIN
  }

  predicate HasRefreshToken(row: Option<Row>) {
    row.Some? && row.value.refresh.Some? && row.value.refresh.value != ""
  }

  predicate Enabled(s: State, e: Event) {
    match e
    case Pass(to) => s.clock <= to
    case Call(c, _) => c !in s.callers
    case Lock(c) => c in s.callers && s.callers[c].pc.Waiting? && s.holder.None?
    case Check(c) => c in s.callers && s.callers[c].pc.Locked?
    case Refuse(c) => c in s.callers && s.callers[c].pc.Asking?
    case Exchange(c, grant) =>
      c in s.callers && s.callers[c].pc.Asking? && grant.refresh !in s.issued && grant.refresh != ""
    case AnswerLost(c, refresh) => c in s.callers && s.callers[c].pc.Asking? && refresh !in s.issued
    case SetFields(c) => c in s.callers && s.callers[c].pc.Granted?
    case Commit(c) => c in s.callers && s.callers[c].pc.Stamped?
    case CommitFails(c) => c in s.callers && s.callers[c].pc.Stamped?
    case Crash(c) => c in s.callers && (s.callers[c].pc.Waiting? || InLock(s.callers[c].pc))
  }

  function Move(s: State, c: nat, pc: Pc): State
    requires c in s.callers
  {
    s.(callers := s.callers[c := s.callers[c].(pc := pc)])
  }

  /** Moving on and giving up the lock. */
  function Leave(s: State, c: nat, pc: Pc): State
    requires c in s.callers
  {
    Move(s, c, pc).(holder := if s.holder == Some(c) then None else s.holder)
  }

  /** The token the provider would take is the one on the row. */
  predicate StoredIsCurrent(s: State) {
    HasRefreshToken(s.row) && s.row.value.refresh.value == s.current
  }

  function CheckStep(s: State, c: nat): State
    requires c in s.callers
  {
    if s.row.None? then Leave(s, c, Failed)
    else if !s.callers[c].canRefresh || !Expiring(s.row.value, s.clock)
    then Leave(s, c, Done(s.row.value.access, s.row.value.expiresAt, s.clock, false))
    else if !HasRefreshToken(s.row) then Leave(s, c, Failed)
    else Move(s, c, Asking)
  }

  function Apply(s: State, e: Event): State
    requires Enabled(s, e)
  {
    match e
    case Pass(to) => s.(clock := to)
    case Call(c, canRefresh) => s.(callers := s.callers[c := Caller(canRefresh, Waiting)])
    case Lock(c) => Move(s, c, Locked).(holder := Some(c))
    case Check(c) => CheckStep(s, c)
    case Refuse(c) => Leave(s, c, Failed)
    case Exchange(c, grant) =>
      if StoredIsCurrent(s)
      then Move(s, c, Granted(grant)).(current := grant.refresh, issued := s.issued + {grant.refresh})
      else Leave(s, c, Failed)
    case AnswerLost(c, refresh) =>
      if StoredIsCurrent(s) then Leave(s, c, Failed).(current := refresh, issued := s.issued + {refresh})
      else Leave(s, c, Failed)
    case SetFields(c) => Move(s, c, Stamped(s.callers[c].pc.grant, s.clock))
    case Commit(c) =>
      var pc := s.callers[c].pc;
      var expiresAt := Some(pc.at + pc.grant.lifetime);
      Leave(s, c, Done(pc.grant.access, expiresAt, pc.at, true))
        .(row := Some(Row(pc.grant.access, Some(pc.grant.refresh), expiresAt)),
          stamps := s.stamps + [Stamp(pc.at, pc.grant.lifetime)])
    case CommitFails(c) => Leave(s, c, Failed)
    case Crash(c) => Leave(s, c, Failed)
  }

  /** The provider has rotated its token and the row will never hear of it. */
  predicate LosesRotation(s: State, e: Event) {
    match e
    case AnswerLost(c, _) => StoredIsCurrent(s)
    case CommitFails(_) => true
    case Crash(c) => c in s.callers && (s.callers[c].pc.Granted? || s.callers[c].pc.Stamped?)
    case _ => false
  }

  /** A row as it was seeded, and a provider that takes its refresh token if it has one. */
  predicate Seeded(s: State) {
    && s.holder.None? && s.callers == map[] && s.stamps == [] && s.current in s.issued
    && (HasRefreshToken(s.row) ==> s.row.value.refresh.value == s.current)
  }

  predicate ValidRun(init: State, es: seq<Event>)
    decreases |es|, 0
  {
    es == [] || (ValidRun(init, es[..|es| - 1]) && Enabled(After(init, es[..|es| - 1]), es[|es| - 1]))
  }

  function After(init: State, es: seq<Event>): State
    requires ValidRun(init, es)
    decreases |es|, 1
  {
    if es == [] then init else Apply(After(init, es[..|es| - 1]), es[|es| - 1])
  }

  predicate Lost(init: State, es: seq<Event>)
    requires ValidRun(init, es)
    decreases |es|
  {
    es != [] && (Lost(init, es[..|es| - 1]) || LosesRotation(After(init, es[..|es| - 1]), es[|es| - 1]))
  }

  // ---- the invariant ---------------------------------------------------------------------

  /** Exactly one caller is inside the lock while it is held, and none otherwise. */
  ghost predicate LockOk(s: State) {
    && (forall c :: c in s.callers ==> (InLock(s.callers[c].pc) <==> s.holder == Some(c)))
    && (s.holder.Some? ==> s.holder.value in s.callers)
  }

  /** What the holder of the lock has in hand. */
  function HolderPc(s: State): Pc {
    if s.holder.Some? && s.holder.value in s.callers then s.callers[s.holder.value].pc else Waiting
  }

  function GrantOf(pc: Pc): Option<Grant> {
    if pc.Granted? || pc.Stamped? then Some(pc.grant) else None
  }

  /** Where the provider's current token is: on the row, or in the hands of the lock's holder, or lost. */
  predicate RotationOk(s: State, lost: bool) {
    && s.current in s.issued
    && (HasRefreshToken(s.row) ==> s.row.value.refresh.value in s.issued)
    && (HolderPc(s).Asking? ==> HasRefreshToken(s.row))
    && match GrantOf(HolderPc(s))
       case Some(grant) => HasRefreshToken(s.row) && !lost && grant.refresh == s.current != "" && !StoredIsCurrent(s)
       case None => HasRefreshToken(s.row) ==> (StoredIsCurrent(s) <==> !lost)
  }

  lemma StepKeepsLock(s: State, e: Event)
    requires LockOk(s) && Enabled(s, e)
    ensures LockOk(Apply(s, e))
  {
  }

  lemma StepKeepsRotation(s: State, e: Event, lost: bool)
    requires LockOk(s) && Enabled(s, e) && RotationOk(s, lost) && (lost ==> HasRefreshToken(s.row))
    ensures RotationOk(Apply(s, e), lost || LosesRotation(s, e))
    ensures HasRefreshToken(Apply(s, e).row) <==> HasRefreshToken(s.row)
    ensures LosesRotation(s, e) ==> HasRefreshToken(s.row)
  {
  }

  lemma {:induction false} RunKeeps(init: State, es: seq<Event>)
    requires Seeded(init) && ValidRun(init, es)
    ensures var s := After(init, es);
            && LockOk(s) && RotationOk(s, Lost(init, es))
            && (Lost(init, es) ==> HasRefreshToken(s.row))
    decreases |es|
  {
    if es != [] {
      var before := es[..|es| - 1];
      RunKeeps(init, before);
      StepKeepsLock(After(init, before), es[|es| - 1]);
      StepKeepsRotation(After(init, before), es[|es| - 1], Lost(init, before));
    }
  }

  // ---- what callers may rely on ----------------------------------------------------------

  /** Two callers are never inside the lock together. */
  lemma OneAtATime(init: State, es: seq<Event>, c: nat, d: nat)
    requires Seeded(init) && ValidRun(init, es)
    requires var s := After(init, es);
             && c in s.callers && d in s.callers && InLock(s.callers[c].pc)
             && InLock(s.callers[d].pc)
    ensures c == d
  {
    RunKeeps(init, es);
  }

  /** Whenever the lock is free the stored refresh token is the provider's, unless a rotation was lost. */
  lemma StoredTokenIsCurrentIffNoneLost(init: State, es: seq<Event>)
    requires Seeded(init) && ValidRun(init, es)
    requires After(init, es).holder.None? && HasRefreshToken(After(init, es).row)
    ensures StoredIsCurrent(After(init, es)) <==> !Lost(init, es)
  {
    RunKeeps(init, es);
  }

  /**
   The token a caller presents is one the provider still takes, so none it has used up; after a
   lost rotation it never is, and every refresh fails until the credentials are seeded again.
   */
  lemma PresentedTokenIsUnusedIffNoneLost(init: State, es: seq<Event>, c: nat, grant: Grant)
    requires Seeded(init) && ValidRun(init, es) && Enabled(After(init, es), Exchange(c, grant))
    ensures StoredIsCurrent(After(init, es)) <==> !Lost(init, es)
    ensures Apply(After(init, es), Exchange(c, grant)).callers[c].pc
            == if Lost(init, es) then Failed else Granted(grant)
  {
    RunKeeps(init, es);
  }

  lemma RunExtends(init: State, es: seq<Event>, e: Event)
    requires ValidRun(init, es) && Enabled(After(init, es), e)
    ensures ValidRun(init, es + [e]) && After(init, es + [e]) == Apply(After(init, es), e)
    ensures Lost(init, es + [e]) <==> Lost(init, es) || LosesRotation(After(init, es), e)
  {
    assert (es + [e])[..|es|] == es;
  }

  /** A row just seeded, due for refresh at once, as `seed_from_settings` leaves it. */
  function SeededRow(access: string, refresh: string): State {
    State(0, Some(Row(access, Some(refresh), Some(0))), None, map[], refresh, {refresh}, [])
  }

  lemma StepsToTheCommit(access: string, refresh: string, grant: Grant)
    requires refresh != "" && grant.refresh != "" && grant.refresh != refresh
    ensures var s1 := Apply(SeededRow(access, refresh), Call(0, true));
            && Enabled(s1, Lock(0))
            && var s2 := Apply(s1, Lock(0));
            && Enabled(s2, Check(0))
            && var s3 := Apply(s2, Check(0));
            && Enabled(s3, Exchange(0, grant))
            && var s4 := Apply(s3, Exchange(0, grant));
            && Enabled(s4, SetFields(0))
            && var s5 := Apply(s4, SetFields(0));
            && Enabled(s5, CommitFails(0))
            && !LosesRotation(s1, Lock(0)) && !LosesRotation(s2, Check(0)) && !LosesRotation(s3, Exchange(0, grant))
            && var s6 := Apply(s5, CommitFails(0));
            s6.holder.None? && s6.row == SeededRow(access, refresh).row && s6.current == grant.refresh
  {
  }

  /** For one: the first refresh is granted, its commit fails, and the row keeps a token that is used up. */
  lemma FailedCommitLosesTheRotation(access: string, refresh: string, grant: Grant) returns (es: seq<Event>)
    requires refresh != "" && grant.refresh != "" && grant.refresh != refresh
    ensures es == [Call(0, true), Lock(0), Check(0), Exchange(0, grant), SetFields(0), CommitFails(0)]
    ensures var init := SeededRow(access, refresh);
            && Seeded(init) && ValidRun(init, es) && Lost(init, es)
            && After(init, es).holder.None? && !StoredIsCurrent(After(init, es))
  {
    var init := SeededRow(access, refresh);
    StepsToTheCommit(access, refresh, grant);
    es := [];
    RunExtends(init, es, Call(0, true));
    es := es + [Call(0, true)];
    RunExtends(init, es, Lock(0));
    es := es + [Lock(0)];
    RunExtends(init, es, Check(0));
    es := es + [Check(0)];
    RunExtends(init, es, Exchange(0, grant));
    es := es + [Exchange(0, grant)];
    RunExtends(init, es, SetFields(0));
    es := es + [SetFields(0)];
    RunExtends(init, es, CommitFails(0));
    es := es + [CommitFails(0)];
  }

  predicate Lasting(x: Caller) {
    x.pc.Done? && x.canRefresh ==> x.pc.renewed || x.pc.expiresAt.None? || x.pc.expiresAt.value - x.pc.at >= 600
  }

  /** A token handed to a caller that can refresh is newly granted or good for ten minutes. */
  lemma {:induction false} ReturnedTokensLast(init: State, es: seq<Event>, c: nat)
    requires Seeded(init) && ValidRun(init, es) && c in After(init, es).callers
    ensures Lasting(After(init, es).callers[c])
    decreases |es|
  {
    if es != [] {
      var before := es[..|es| - 1];
      var s := After(init, before);
      if c in s.callers {
        ReturnedTokensLast(init, before, c);
      }
      StepKeepsLasting(s, es[|es| - 1], c);
    }
  }

  lemma StepKeepsLasting(s: State, e: Event, c: nat)
    requires Enabled(s, e) && (c in s.callers ==> Lasting(s.callers[c])) && c in Apply(s, e).callers
    ensures Lasting(Apply(s, e).callers[c])
  {
  }

  // ---- how often the provider is asked ---------------------------------------------------

  predicate Spaced(stamps: seq<Stamp>) {
    forall i :: 0 < i < |stamps| ==> stamps[i].at > stamps[i - 1].at + stamps[i - 1].lifetime - 600
  }

  predicate Needed(s: State) {
    s.stamps != [] && s.row.Some? ==>
      var last := s.stamps[|s.stamps| - 1];
      s.row.value.expiresAt == Some(last.at + last.lifetime)
  }

  /** The holder found the token expiring, and what it stamps comes after that. */
  predicate AskedInTime(s: State) {
    && (HolderPc(s).Asking? || HolderPc(s).Granted? ==> s.row.Some? && Expiring(s.row.value, s.clock))
    && (HolderPc(s).Stamped? ==> s.row.Some? && Expiring(s.row.value, HolderPc(s).at))
  }

  lemma StepKeepsSpacing(s: State, e: Event)
    requires LockOk(s) && Enabled(s, e) && Spaced(s.stamps) && Needed(s) && AskedInTime(s)
    requires s.stamps != [] ==> s.row.Some?
    ensures var s' := Apply(s, e);
            && Spaced(s'.stamps) && Needed(s') && AskedInTime(s')
            && (s'.stamps != [] ==> s'.row.Some?)
  {
  }

  /** However many callers there are, a refresh follows the one before it by its lifetime less ten minutes. */
  lemma {:induction false} RefreshesAreSpaced(init: State, es: seq<Event>)
    requires Seeded(init) && ValidRun(init, es)
    ensures var s := After(init, es);
            && Spaced(s.stamps) && Needed(s) && AskedInTime(s)
            && (s.stamps != [] ==> s.row.Some?)
    decreases |es|
  {
    if es != [] {
      var before := es[..|es| - 1];
      RefreshesAreSpaced(init, before);
      RunKeeps(init, before);
      StepKeepsSpacing(After(init, before), es[|es| - 1]);
    }
  }

  /** So n refreshes of tokens that live at least `lifetime` take (n - 1)(lifetime - 600) seconds or more. */
  lemma {:induction false} RefreshesTakeTime(stamps: seq<Stamp>, lifetime: int)
    requires Spaced(stamps) && stamps != [] && (forall x :: x in stamps ==> x.lifetime >= lifetime)
    ensures (|stamps| - 1) * (lifetime - 600) <= stamps[|stamps| - 1].at - stamps[0].at
    decreases |stamps|
  {
    if |stamps| > 1 {
      var n := |stamps| - 1;
      RefreshesTakeTime(stamps[..n], lifetime);
      assert stamps[n - 1] in stamps;
      assert n * (lifetime - 600) == (n - 1) * (lifetime - 600) + (lifetime - 600);
    }
  }
}
