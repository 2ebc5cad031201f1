/** The double-checked tenant cache of one gateway: getOrCreateTenant of cmd/gateway/service/oauth.go.
    Any number of callers interleave; the gateway is the only writer of the Tenants table. */
module Tenants {
  import opened Wrappers

  datatype User = User(provider: string, id: string)

  type TenantId = string

  type CallerId = nat

  /** Where a caller is. From LockedFound and Locked to Leaving it holds the write lock. */
  datatype Pc =
    | Start
    | Missed
    | FoundRow(tenant: TenantId)
    | LockedFound(tenant: TenantId)
    | Absent
    | Locked
    | Creating(tenant: TenantId)
    | Inserted(tenant: TenantId)
    | Leaving(result: Option<TenantId>)
    | Done(result: Option<TenantId>)
  {
    predicate Holding() {
      LockedFound? || Locked? || Creating? || Inserted? || Leaving?
    }

    /** Has it settled on a tenant that it found or created? */
    predicate Has(t: TenantId) {
      match this
      case FoundRow(tenant) => t == tenant
      case LockedFound(tenant) => t == tenant
      case Inserted(tenant) => t == tenant
      case Leaving(result) => result == Some(t)
      case Done(result) => result == Some(t)
      case _ => false
    }
  }

  datatype Call = Call(user: User, pc: Pc)

  /** The cache is keyed by the user's id alone; the table by the tenant's id. */
  datatype State = State(
    cache: map<string, TenantId>,
    table: map<TenantId, User>,
    holder: Option<CallerId>,
    calls: map<CallerId, Call>)

  /** One step of a caller, with what the database or the id generator answers. The table query and
      the insert are steps of their own; a failed query or insert changes nothing. */
  datatype Step =
    | Arrive(caller: CallerId, user: User)
    | ReadCache(caller: CallerId)
    | QueryFails(caller: CallerId)
    | QueryFinds(caller: CallerId, tenant: TenantId)
    | QueryFindsNone(caller: CallerId)
    | Acquire(caller: CallerId)
    | CacheFound(caller: CallerId)
    | Recheck(caller: CallerId, drawn: TenantId)
    | InsertFails(caller: CallerId)
    | Insert(caller: CallerId)
    | CacheNew(caller: CallerId)
    | Release(caller: CallerId)

  predicate HasTenant(table: map<TenantId, User>, user: User) {
    exists t :: t in table && table[t] == user
  }

  predicate Enabled(s: State, step: Step) {
    if step.Arrive? then step.caller !in s.calls
    else
      && step.caller in s.calls
      && var call := s.calls[step.caller];
      match step
      case ReadCache(_) => call.pc.Start? && s.holder.None?
      case QueryFails(_) => call.pc.Missed?
      case QueryFinds(_, t) => call.pc.Missed? && t in s.table && s.table[t] == call.user
      case QueryFindsNone(_) => call.pc.Missed? && !HasTenant(s.table, call.user)
      case Acquire(_) => (call.pc.FoundRow? || call.pc.Absent?) && s.holder.None?
      case CacheFound(_) => call.pc.LockedFound?
      case Recheck(_, _) => call.pc.Locked?
      case InsertFails(_) => call.pc.Creating?
      case Insert(_) => call.pc.Creating?
      case CacheNew(_) => call.pc.Inserted?
      case Release(_) => call.pc.Leaving?
      case Arrive(_, _) => true
  }

  function At(s: State, c: CallerId, pc: Pc): State
    requires c in s.calls
  {
    s.(calls := s.calls[c := s.calls[c].(pc := pc)])
  }

  function Next(s: State, step: Step): State
    requires Enabled(s, step)
  {
    match step
    case Arrive(c, user) => s.(calls := s.calls[c := Call(user, Start)])
    case ReadCache(c) =>
      var id := s.calls[c].user.id;
      At(s, c, if id in s.cache then Done(Some(s.cache[id])) else Missed)
    case QueryFails(c) => At(s, c, Done(None))
    case QueryFinds(c, t) => At(s, c, FoundRow(t))
    case QueryFindsNone(c) => At(s, c, Absent)
    case Acquire(c) =>
      var pc := s.calls[c].pc;
      At(s, c, if pc.FoundRow? then LockedFound(pc.tenant) else Locked).(holder := Some(c))
    case CacheFound(c) =>
      var t := s.calls[c].pc.tenant;
      At(s, c, Leaving(Some(t))).(cache := s.cache[s.calls[c].user.id := t])
    case Recheck(c, drawn) =>
      var id := s.calls[c].user.id;
      At(s, c, if id in s.cache then Leaving(Some(s.cache[id])) else Creating(drawn))
    case InsertFails(c) => At(s, c, Leaving(None))
    case Insert(c) =>
      // An id that exists already is taken as this user's, and nothing is inserted.
      var t := s.calls[c].pc.tenant;
      At(s, c, Inserted(t)).(table := if t in s.table then s.table else s.table[t := s.calls[c].user])
    case CacheNew(c) =>
      var t := s.calls[c].pc.tenant;
      At(s, c, Leaving(Some(t))).(cache := s.cache[s.calls[c].user.id := t])
    case Release(c) => At(s, c, Done(s.calls[c].pc.result)).(holder := None)
  }

  // ----- Runs

  predicate CanRun(s: State, steps: seq<Step>)
    decreases |steps|
  {
    steps == [] || (Enabled(s, steps[0]) && CanRun(Next(s, steps[0]), steps[1..]))
  }

  function Final(s: State, steps: seq<Step>): State
    requires CanRun(s, steps)
    decreases |steps|
  {
    if steps == [] then s else Final(Next(s, steps[0]), steps[1..])
  }

  lemma {:induction false} RunSnoc(s: State, steps: seq<Step>, step: Step)
    requires CanRun(s, steps) && Enabled(Final(s, steps), step)
    ensures CanRun(s, steps + [step]) && Final(s, steps + [step]) == Next(Final(s, steps), step)
    decreases |steps|
  {
    if steps == [] {
      assert [step][1..] == [];
    } else {
      RunSnoc(Next(s, steps[0]), steps[1..], step);
      assert (steps + [step])[1..] == steps[1..] + [step];
    }
  }

  /** The ids that are drawn collide with no tenant, and a user id comes from one provider only. */
  predicate Fair(s: State, step: Step, provider: string -> string)
    requires Enabled(s, step)
  {
    match step
    case Arrive(_, user) => user.provider == provider(user.id)
    case Insert(c) => s.calls[c].pc.tenant !in s.table
    case _ => true
  }

  predicate FairRun(s: State, steps: seq<Step>, provider: string -> string)
    requires CanRun(s, steps)
    decreases |steps|
  {
    steps == [] || (Fair(s, steps[0], provider) && FairRun(Next(s, steps[0]), steps[1..], provider))
  }

  // ----- What every step keeps

  predicate OneTenantPerUser(table: map<TenantId, User>) {
    forall t, u :: t in table && u in table && table[t] == table[u] ==> t == u
  }

  predicate CacheAgrees(s: State, provider: string -> string) {
    forall id :: id in s.cache ==> s.cache[id] in s.table && s.table[s.cache[id]] == User(provider(id), id)
  }

  /** The caller's tenant is in the table, under the caller's user. */
  ghost predicate TenantIsTheirs(s: State, call: Call) {
    forall t :: call.pc.Has(t) ==> t in s.table && s.table[t] == call.user
  }

  /** The lock holder has inserted the user's tenant and not cached it yet. */
  predicate BeingCached(s: State, user: User) {
    && s.holder.Some? && s.holder.value in s.calls
    && s.calls[s.holder.value].pc.Inserted? && s.calls[s.holder.value].user == user
  }

  /** What a caller that saw no tenant can rely on: one that exists by now is, or is being, cached. */
  predicate NoneUncached(s: State, call: Call) {
    match call.pc
    case Absent => HasTenant(s.table, call.user) ==> call.user.id in s.cache || BeingCached(s, call.user)
    case Locked => HasTenant(s.table, call.user) ==> call.user.id in s.cache
    case Creating(_) => !HasTenant(s.table, call.user)
    case _ => true
  }

  ghost predicate Good(s: State, provider: string -> string) {
    && OneTenantPerUser(s.table)
    && CacheAgrees(s, provider)
    && (forall c :: c in s.calls ==>
          && s.calls[c].user.provider == provider(s.calls[c].user.id)
          && (s.calls[c].pc.Holding() <==> s.holder == Some(c))
          && TenantIsTheirs(s, s.calls[c])
          && NoneUncached(s, s.calls[c]))
    && (s.holder.Some? ==> s.holder.value in s.calls)
  }

  lemma StepKeepsGood(s: State, step: Step, provider: string -> string)
    requires Good(s, provider) && Enabled(s, step) && Fair(s, step, provider)
    ensures Good(Next(s, step), provider)
  {
    match step
    case Insert(c) => InsertKeepsGood(s, c, provider);
    case CacheNew(c) => CachingKeepsGood(s, step, provider);
    case CacheFound(c) => CachingKeepsGood(s, step, provider);
    case Acquire(c) => AcquireKeepsGood(s, c, provider);
    case Release(c) => ReleaseKeepsGood(s, c, provider);
    case Recheck(c, drawn) => RecheckKeepsGood(s, step, provider);
    case InsertFails(c) => InsertFailsKeepsGood(s, c, provider);
    case Arrive(c, user) => ArriveKeepsGood(s, step, provider);
    case ReadCache(c) => ReadKeepsGood(s, step, provider);
    case _ => QueryKeepsGood(s, step, provider);
  }

  lemma ArriveKeepsGood(s: State, step: Step, provider: string -> string)
    requires Good(s, provider) && step.Arrive? && Enabled(s, step) && Fair(s, step, provider)
    ensures Good(Next(s, step), provider)
  {
  }

  /** A caller moves and touches nothing else. */
  lemma MoveKeepsGood(s: State, c: CallerId, pc: Pc, provider: string -> string)
    requires Good(s, provider) && c in s.calls
    requires (pc.Holding() <==> s.calls[c].pc.Holding()) && !s.calls[c].pc.Inserted?
    requires TenantIsTheirs(s, s.calls[c].(pc := pc)) && NoneUncached(s, s.calls[c].(pc := pc))
    ensures Good(At(s, c, pc), provider)
  {
    var next := At(s, c, pc);
    forall d | d in s.calls && d != c
      ensures NoneUncached(next, next.calls[d])
    {
      assert BeingCached(s, s.calls[d].user) ==> BeingCached(next, s.calls[d].user);
    }
  }

  lemma ReadKeepsGood(s: State, step: Step, provider: string -> string)
    requires Good(s, provider) && step.ReadCache? && Enabled(s, step)
    ensures Good(Next(s, step), provider)
  {
    MoveKeepsGood(s, step.caller, Next(s, step).calls[step.caller].pc, provider);
  }

  lemma QueryKeepsGood(s: State, step: Step, provider: string -> string)
    requires Good(s, provider) && (step.QueryFails? || step.QueryFinds? || step.QueryFindsNone?) && Enabled(s, step)
    ensures Good(Next(s, step), provider)
  {
    MoveKeepsGood(s, step.caller, Next(s, step).calls[step.caller].pc, provider);
  }

  lemma AcquireKeepsGood(s: State, c: CallerId, provider: string -> string)
    requires Good(s, provider) && Enabled(s, Acquire(c))
    ensures Good(Next(s, Acquire(c)), provider)
  {
  }

  lemma RecheckKeepsGood(s: State, step: Step, provider: string -> string)
    requires Good(s, provider) && step.Recheck? && Enabled(s, step)
    ensures Good(Next(s, step), provider)
  {
    MoveKeepsGood(s, step.caller, Next(s, step).calls[step.caller].pc, provider);
  }

  lemma InsertFailsKeepsGood(s: State, c: CallerId, provider: string -> string)
    requires Good(s, provider) && Enabled(s, InsertFails(c))
    ensures Good(Next(s, InsertFails(c)), provider)
  {
    MoveKeepsGood(s, c, Leaving(None), provider);
  }

  lemma InsertKeepsGood(s: State, c: CallerId, provider: string -> string)
    requires Good(s, provider) && Enabled(s, Insert(c)) && Fair(s, Insert(c), provider)
    ensures Good(Next(s, Insert(c)), provider)
  {
  }

  lemma CachingKeepsGood(s: State, step: Step, provider: string -> string)
    requires Good(s, provider) && (step.CacheFound? || step.CacheNew?) && Enabled(s, step)
    ensures Good(Next(s, step), provider)
  {
  }

  lemma ReleaseKeepsGood(s: State, c: CallerId, provider: string -> string)
    requires Good(s, provider) && Enabled(s, Release(c))
    ensures Good(Next(s, Release(c)), provider)
  {
  }

  lemma {:induction false} RunKeepsGood(s: State, steps: seq<Step>, provider: string -> string)
    requires Good(s, provider) && CanRun(s, steps) && FairRun(s, steps, provider)
    ensures Good(Final(s, steps), provider)
    decreases |steps|
  {
    if steps != [] {
      StepKeepsGood(s, steps[0], provider);
      RunKeepsGood(Next(s, steps[0]), steps[1..], provider);
    }
  }

  // ----- Main results

  /** A gateway that has just started, over a table with at most one tenant per user. */
  predicate Initial(s: State) {
    s.cache == map[] && s.calls == map[] && s.holder == None && OneTenantPerUser(s.table)
  }

  predicate Returned(s: State, c: CallerId, t: TenantId) {
    c in s.calls && s.calls[c].pc == Done(Some(t))
  }

  /** Over every interleaving: no user ever has two tenants, and the cache agrees with the table. */
  lemma OneTenantForAll(s: State, steps: seq<Step>, provider: string -> string)
    requires Initial(s) && CanRun(s, steps) && FairRun(s, steps, provider)
    ensures OneTenantPerUser(Final(s, steps).table) && CacheAgrees(Final(s, steps), provider)
  {
    RunKeepsGood(s, steps, provider);
  }

  /** A call that succeeds returns a tenant of its user, and any two that succeed for the same user
      return the same. */
  lemma CallersAgree(
    s: State, steps: seq<Step>, provider: string -> string, c: CallerId, t: TenantId, d: CallerId, u: TenantId)
    requires Initial(s) && CanRun(s, steps) && FairRun(s, steps, provider)
    requires Returned(Final(s, steps), c, t) && Returned(Final(s, steps), d, u)
    ensures var f := Final(s, steps);
      && t in f.table && f.table[t] == f.calls[c].user
      && (f.calls[c].user == f.calls[d].user <==> t == u)
  {
    RunKeepsGood(s, steps, provider);
    var f := Final(s, steps);
    assert f.calls[c].pc.Has(t) && f.calls[d].pc.Has(u);
  }

  lemma {:induction false} RunGrows(s: State, steps: seq<Step>)
    requires CanRun(s, steps)
    ensures s.cache.Keys <= Final(s, steps).cache.Keys
    ensures forall t :: t in s.table ==> t in Final(s, steps).table && Final(s, steps).table[t] == s.table[t]
    decreases |steps|
  {
    if steps != [] {
      RunGrows(Next(s, steps[0]), steps[1..]);
    }
  }

  /** What the cache once says about a user it says for ever. */
  lemma CacheIsStable(s: State, steps: seq<Step>, provider: string -> string, id: string)
    requires Good(s, provider) && CanRun(s, steps) && FairRun(s, steps, provider) && id in s.cache
    ensures id in Final(s, steps).cache && Final(s, steps).cache[id] == s.cache[id]
  {
    RunKeepsGood(s, steps, provider);
    RunGrows(s, steps);
  }

  // ----- When a call succeeds

  /** The call returns, or is about to return, without a tenant. */
  predicate EndsEmpty(s: State, c: CallerId) {
    c in s.calls && s.calls[c].pc in {Leaving(None), Done(None)}
  }

  lemma EmptyComesFromFailure(s: State, step: Step, c: CallerId)
    requires Enabled(s, step)
    ensures EndsEmpty(Next(s, step), c) <==> EndsEmpty(s, c) || step in {QueryFails(c), InsertFails(c)}
  {
  }

  lemma {:induction false} EmptyOverARun(s: State, steps: seq<Step>, c: CallerId)
    requires CanRun(s, steps)
    ensures EndsEmpty(Final(s, steps), c) <==>
      EndsEmpty(s, c) || exists i :: 0 <= i < |steps| && steps[i] in {QueryFails(c), InsertFails(c)}
    decreases |steps|
  {
    if steps != [] {
      EmptyComesFromFailure(s, steps[0], c);
      EmptyOverARun(Next(s, steps[0]), steps[1..], c);
      if i :| 0 <= i < |steps| && steps[i] in {QueryFails(c), InsertFails(c)} {
        assert i > 0 ==> steps[1..][i - 1] == steps[i];
      }
    }
  }

  /** Over every run, a call comes away without a tenant if and only if its own query or its own insert
      failed in that run, whatever the other callers do. */
  lemma EmptyHandedExactlyAfterOwnFailure(s: State, steps: seq<Step>, c: CallerId)
    requires Initial(s) && CanRun(s, steps)
    ensures c in Final(s, steps).calls && Final(s, steps).calls[c].pc in {Leaving(None), Done(None)} <==>
      QueryFails(c) in steps || InsertFails(c) in steps
  {
    EmptyOverARun(s, steps, c);
  }

  function StepsToGo(pc: Pc): nat {
    match pc
    case Start => 8
    case Missed => 7
    case FoundRow(_) => 6
    case Absent => 6
    case LockedFound(_) => 5
    case Locked => 5
    case Creating(_) => 4
    case Inserted(_) => 3
    case Leaving(_) => 2
    case Done(_) => 1
  }

  /** The caller's next step when no query and no insert of its own fails. */
  ghost function OwnStep(s: State, c: CallerId, drawn: TenantId): Step
    requires c in s.calls && !s.calls[c].pc.Done?
  {
    match s.calls[c].pc
    case Start => ReadCache(c)
    case Missed =>
      if HasTenant(s.table, s.calls[c].user) then
        var t :| t in s.table && s.table[t] == s.calls[c].user;
        QueryFinds(c, t)
      else QueryFindsNone(c)
    case FoundRow(_) => Acquire(c)
    case Absent => Acquire(c)
    case LockedFound(_) => CacheFound(c)
    case Locked => Recheck(c, drawn)
    case Creating(_) => Insert(c)
    case Inserted(_) => CacheNew(c)
    case Leaving(_) => Release(c)
  }

  /** The call is under way, nobody else has the lock, and the drawn id is unused while it matters. */
  ghost predicate CanGoOn(s: State, c: CallerId, drawn: TenantId) {
    && c in s.calls && (s.holder == None || s.holder == Some(c)) && !EndsEmpty(s, c)
    && (!HasTenant(s.table, s.calls[c].user) ==> drawn !in s.table)
    && (s.calls[c].pc.Creating? ==> s.calls[c].pc.tenant == drawn)
  }

  ghost function TableWith(s: State, user: User, drawn: TenantId): map<TenantId, User> {
    if HasTenant(s.table, user) then s.table else s.table[drawn := user]
  }

  /** The step of its own takes the call closer to its end and leaves it able to go on. */
  ghost predicate GoesOn(s: State, c: CallerId, drawn: TenantId, provider: string -> string)
    requires CanGoOn(s, c, drawn) && !s.calls[c].pc.Done?
  {
    var step := OwnStep(s, c, drawn);
    && Enabled(s, step) && Fair(s, step, provider) && CanGoOn(Next(s, step), c, drawn)
    && Next(s, step).calls[c].user == s.calls[c].user
    && StepsToGo(Next(s, step).calls[c].pc) < StepsToGo(s.calls[c].pc)
    && step.caller == c && !step.QueryFails? && !step.InsertFails?
    && TableWith(Next(s, step), s.calls[c].user, drawn) == TableWith(s, s.calls[c].user, drawn)
  }

  lemma UnlockedStepGoesOn(s: State, c: CallerId, drawn: TenantId, provider: string -> string)
    requires Good(s, provider) && CanGoOn(s, c, drawn) && !s.calls[c].pc.Done? && !s.calls[c].pc.Holding()
    ensures GoesOn(s, c, drawn, provider)
  {
  }

  lemma LockedStepGoesOn(s: State, c: CallerId, drawn: TenantId, provider: string -> string)
    requires Good(s, provider) && CanGoOn(s, c, drawn) && s.calls[c].pc.Holding() && !s.calls[c].pc.Creating?
    ensures GoesOn(s, c, drawn, provider)
  {
    assert NoneUncached(s, s.calls[c]);
  }

  lemma InsertGoesOn(s: State, c: CallerId, drawn: TenantId, provider: string -> string)
    requires Good(s, provider) && CanGoOn(s, c, drawn) && s.calls[c].pc.Creating?
    ensures GoesOn(s, c, drawn, provider)
  {
    assert NoneUncached(s, s.calls[c]);
    assert Next(s, Insert(c)).table[drawn] == s.calls[c].user;
  }

  /** No call is stuck: wherever it is, as long as nobody else has the lock it has steps of its own, in
      which no query and no insert fails, that return its user's tenant and free the lock. The table gains
      the drawn id, for that user, exactly if the user had no tenant. */
  lemma {:induction false} CallCompletes(s: State, c: CallerId, drawn: TenantId, provider: string -> string)
    returns (steps: seq<Step>, t: TenantId)
    requires Good(s, provider) && CanGoOn(s, c, drawn)
    ensures CanRun(s, steps) && FairRun(s, steps, provider)
    ensures forall i :: 0 <= i < |steps| ==>
      steps[i].caller == c && !steps[i].QueryFails? && !steps[i].InsertFails?
    ensures var f, user := Final(s, steps), s.calls[c].user;
      && c in f.calls && f.calls[c] == Call(user, Done(Some(t)))
      && t in f.table && f.table[t] == user
      && f.table == (if HasTenant(s.table, user) then s.table else s.table[drawn := user])
      && f.holder == None
    decreases StepsToGo(s.calls[c].pc)
  {
    if s.calls[c].pc.Done? {
      steps, t := [], s.calls[c].pc.result.value;
      assert s.calls[c].pc.Has(t);
    } else {
      var step := OwnStep(s, c, drawn);
      if s.calls[c].pc.Creating? {
        InsertGoesOn(s, c, drawn, provider);
      } else if s.calls[c].pc.Holding() {
        LockedStepGoesOn(s, c, drawn, provider);
      } else {
        UnlockedStepGoesOn(s, c, drawn, provider);
      }
      StepKeepsGood(s, step, provider);
      var rest;
      rest, t := CallCompletes(Next(s, step), c, drawn, provider);
      steps := [step] + rest;
      assert steps[1..] == rest;
    }
  }

  /** So, whenever nobody has the lock, a new request comes back with its user's tenant by steps of its
      own, whether the user is known or not, the answer cached, and in the table, or neither. */
  lemma RequestCompletes(s: State, c: CallerId, user: User, drawn: TenantId, provider: string -> string)
    returns (steps: seq<Step>, t: TenantId)
    requires Good(s, provider) && s.holder == None && c !in s.calls
    requires user.provider == provider(user.id) && drawn !in s.table
    ensures CanRun(s, [Arrive(c, user)] + steps) && FairRun(s, [Arrive(c, user)] + steps, provider)
    ensures forall i :: 0 <= i < |steps| ==>
      steps[i].caller == c && !steps[i].QueryFails? && !steps[i].InsertFails?
    ensures var f := Final(s, [Arrive(c, user)] + steps);
      && c in f.calls && f.calls[c] == Call(user, Done(Some(t)))
      && t in f.table && f.table[t] == user && f.holder == None
      && if exists u :: u in s.table && s.table[u] == user then f.table == s.table
         else t == drawn && f.table == s.table[drawn := user]
  {
    StepKeepsGood(s, Arrive(c, user), provider);
    steps, t := CallCompletes(Next(s, Arrive(c, user)), c, drawn, provider);
    assert ([Arrive(c, user)] + steps)[1..] == steps;
  }

  // ----- Where the promises end

  /** The insert keeps cache and table in agreement exactly when the drawn id is new: one that exists
      already is cached for this user although it belongs to another. */
  lemma AgreesExactlyWhenIdIsNew(s: State, c: CallerId, provider: string -> string)
    requires Good(s, provider) && Enabled(s, Insert(c))
    ensures var inserted := Next(s, Insert(c));
      && Enabled(inserted, CacheNew(c))
      && (CacheAgrees(Next(inserted, CacheNew(c)), provider) <==> s.calls[c].pc.tenant !in s.table)
  {
    var t, user := s.calls[c].pc.tenant, s.calls[c].user;
    var after := Next(Next(s, Insert(c)), CacheNew(c));
    assert NoneUncached(s, s.calls[c]);
    assert after.cache[user.id] == t;
    if t in s.table {
      assert after.table[t] == s.table[t] != user;
    }
  }

  /** The cache is keyed by the user id alone: a caller whose id is cached is given a tenant of its own
      exactly when it comes from the provider that the id was cached for. */
  lemma CachedTenantIsTheirsExactlyWhenProviderMatches(s: State, c: CallerId, user: User, provider: string -> string)
    requires Good(s, provider) && c !in s.calls && s.holder == None && user.id in s.cache
    ensures var arrived := Next(s, Arrive(c, user));
      && Enabled(arrived, ReadCache(c))
      && var read := Next(arrived, ReadCache(c));
      && read.calls[c].pc == Done(Some(s.cache[user.id]))
      && (TenantIsTheirs(read, read.calls[c]) <==> user.provider == provider(user.id))
  {
    var read := Next(Next(s, Arrive(c, user)), ReadCache(c));
    assert read.calls[c].pc.Has(s.cache[user.id]);
  }

  // ----- The sections under the write lock

  lemma RunExtends(s: State, steps: seq<Step>, now: State, step: Step)
    requires CanRun(s, steps) && Final(s, steps) == now && Enabled(now, step)
    ensures CanRun(s, steps + [step]) && Final(s, steps + [step]) == Next(now, step)
  {
    RunSnoc(s, steps, step);
  }

  /** A caller that found no tenant, but a cached one once it holds the lock. */
  lemma CachedMeanwhile(s: State, c: CallerId, user: User, drawn: TenantId) returns (steps: seq<Step>)
    requires s.holder == None && c in s.calls && s.calls[c] == Call(user, Absent) && user.id in s.cache
    ensures CanRun(s, steps)
    ensures Final(s, steps) == s.(calls := s.calls[c := Call(user, Done(Some(s.cache[user.id])))])
  {
    RunExtends(s, [], s, Acquire(c));
    var locked := Next(s, Acquire(c));
    RunExtends(s, [] + [Acquire(c)], locked, Recheck(c, drawn));
    var checked := Next(locked, Recheck(c, drawn));
    steps := [] + [Acquire(c)] + [Recheck(c, drawn)];
    RunExtends(s, steps, checked, Release(c));
    steps := steps + [Release(c)];
    assert Next(checked, Release(c)).calls == s.calls[c := Call(user, Done(Some(s.cache[user.id])))];
  }

  lemma CreationFails(s: State, c: CallerId, user: User, drawn: TenantId) returns (steps: seq<Step>)
    requires s.holder == None && c in s.calls && s.calls[c] == Call(user, Absent) && user.id !in s.cache
    ensures CanRun(s, steps) && Final(s, steps) == s.(calls := s.calls[c := Call(user, Done(None))])
  {
    RunExtends(s, [], s, Acquire(c));
    var locked := Next(s, Acquire(c));
    RunExtends(s, [] + [Acquire(c)], locked, Recheck(c, drawn));
    var checked := Next(locked, Recheck(c, drawn));
    steps := [] + [Acquire(c)] + [Recheck(c, drawn)];
    RunExtends(s, steps, checked, InsertFails(c));
    var failed := Next(checked, InsertFails(c));
    steps := steps + [InsertFails(c)];
    RunExtends(s, steps, failed, Release(c));
    steps := steps + [Release(c)];
    assert Next(failed, Release(c)).calls == s.calls[c := Call(user, Done(None))];
  }

  lemma CreationSucceeds(s: State, c: CallerId, user: User, drawn: TenantId) returns (steps: seq<Step>)
    requires s.holder == None && c in s.calls && s.calls[c] == Call(user, Absent) && user.id !in s.cache
    ensures CanRun(s, steps)
    ensures Final(s, steps) == State(
      s.cache[user.id := drawn], if drawn in s.table then s.table else s.table[drawn := user], None,
      s.calls[c := Call(user, Done(Some(drawn)))])
  {
    RunExtends(s, [], s, Acquire(c));
    var locked := Next(s, Acquire(c));
    RunExtends(s, [] + [Acquire(c)], locked, Recheck(c, drawn));
    var checked := Next(locked, Recheck(c, drawn));
    steps := [] + [Acquire(c)] + [Recheck(c, drawn)];
    RunExtends(s, steps, checked, Insert(c));
    var inserted := Next(checked, Insert(c));
    steps := steps + [Insert(c)];
    RunExtends(s, steps, inserted, CacheNew(c));
    var cached := Next(inserted, CacheNew(c));
    steps := steps + [CacheNew(c)];
    RunExtends(s, steps, cached, Release(c));
    steps := steps + [Release(c)];
    assert Next(cached, Release(c)).calls == s.calls[c := Call(user, Done(Some(drawn)))];
  }

  lemma FoundIsCached(s: State, c: CallerId, user: User, tenant: TenantId) returns (steps: seq<Step>)
    requires s.holder == None && c in s.calls && s.calls[c] == Call(user, FoundRow(tenant))
    ensures CanRun(s, steps)
    ensures Final(s, steps) == State(
      s.cache[user.id := tenant], s.table, None, s.calls[c := Call(user, Done(Some(tenant)))])
  {
    RunExtends(s, [], s, Acquire(c));
    var locked := Next(s, Acquire(c));
    RunExtends(s, [] + [Acquire(c)], locked, CacheFound(c));
    var cached := Next(locked, CacheFound(c));
    steps := [] + [Acquire(c)] + [CacheFound(c)];
    RunExtends(s, steps, cached, Release(c));
    steps := steps + [Release(c)];
    assert Next(cached, Release(c)).calls == s.calls[c := Call(user, Done(Some(tenant)))];
  }

  class Gateway {
    var cache: map<string, TenantId>
    var table: map<TenantId, User>

    constructor (table: map<TenantId, User>)
      ensures cache == map[] && this.table == table
    {
      cache := map[];
      this.table := table;
    }

    /** The gateway between critical sections. */
    function Unlocked(calls: map<CallerId, Call>): State
      reads this
    {
      State(cache, table, None, calls)
    }

    /** A tenant was found in the table: it is cached. The section does what steps of the protocol do. */
    method CacheTenant(user: User, tenant: TenantId, ghost calls: map<CallerId, Call>, ghost c: CallerId)
      returns (r: Option<TenantId>, ghost steps: seq<Step>)
      requires c in calls && calls[c] == Call(user, FoundRow(tenant))
      modifies this
      ensures r == Some(tenant) && cache == old(cache)[user.id := tenant] && table == old(table)
      ensures CanRun(old(Unlocked(calls)), steps)
      ensures Final(old(Unlocked(calls)), steps) == Unlocked(calls[c := Call(user, Done(r))])
    {
      steps := FoundIsCached(Unlocked(calls), c, user, tenant);
      cache := cache[user.id := tenant];
      r := Some(tenant);
    }

    /** None was found: unless the cache has one by now, one is inserted and cached. */
    method CreateTenant(
      user: User, drawn: TenantId, insertFails: bool, ghost calls: map<CallerId, Call>, ghost c: CallerId)
      returns (r: Option<TenantId>, ghost steps: seq<Step>)
      requires c in calls && calls[c] == Call(user, Absent)
      modifies this
      ensures user.id in old(cache) ==> r == Some(old(cache)[user.id])
      ensures r == None <==> user.id !in old(cache) && insertFails
      ensures user.id in old(cache) || insertFails ==> cache == old(cache) && table == old(table)
      ensures user.id !in old(cache) && !insertFails ==>
        && r == Some(drawn) && cache == old(cache)[user.id := drawn]
        && table.Keys == old(table).Keys + {drawn} && (drawn !in old(table) ==> table[drawn] == user)
        && forall t :: t in old(table) ==> table[t] == old(table)[t]
      ensures CanRun(old(Unlocked(calls)), steps)
      ensures Final(old(Unlocked(calls)), steps) == Unlocked(calls[c := Call(user, Done(r))])
    {
      if user.id in cache {
        steps := CachedMeanwhile(Unlocked(calls), c, user, drawn);
        return Some(cache[user.id]), steps;
      }
      if insertFails {
        steps := CreationFails(Unlocked(calls), c, user, drawn);
        return None, steps;
      }
      steps := CreationSucceeds(Unlocked(calls), c, user, drawn);
      if drawn !in table {
        table := table[drawn := user];
      }
      cache := cache[user.id := drawn];
      r := Some(drawn);
    }
  }
}
