/** The cache of internal/caching/cached_atom.go: any number of threads calling `Get`, interleaved at
    every lock operation, clock reading and return of the retriever. */
module CachedAtom {
  import opened Wrappers
  import opened Text

  /** Instants are nanoseconds since Go's zero time, which is also what an unset `time.Time` holds. */
  const UNSET: int := 0

  /** `Time.Sub` saturates at the ends of the 64-bit range. */
  function Elapsed(now: int, since: int): (d: int)
    ensures MIN_INT64 <= d <= MAX_INT64
    ensures IsInt64(now - since) ==> d == now - since
  {
    if now - since > MAX_INT64 then MAX_INT64 else if now - since < MIN_INT64 then MIN_INT64 else now - since
  }

  /** The check under the read lock. */
  predicate Stale(now: int, fetchedAt: int, expireAfter: int) {
    fetchedAt == UNSET || Elapsed(now, fetchedAt) > expireAfter
  }

  /** The check under the write lock, which does not ask whether the time is set. */
  predicate StillFresh(now: int, fetchedAt: int, expireAfter: int) { Elapsed(now, fetchedAt) <= expireAfter }

  /** Where a thread is inside `Get`. */
  datatype Pc =
    | Outside
    | Reading                      // holds the read lock
    | Upgrading                    // has let go of it and waits for the write lock
    | Writing                      // holds the write lock
    | Retrieving(now: int)         // holds the write lock, inside the retriever

  datatype Fetch<T> = Fetch(at: int, value: T)

  /** A return of `Get` without error: the clock reading it went by, the value, and how many retrievals
      had succeeded by then. */
  datatype Return<T> = Return(reading: int, value: Option<T>, fetches: nat)

  datatype State<T> = State(
    clock: int,
    current: Option<T>,
    fetchedAt: int,
    threads: map<nat, Pc>,
    fetches: seq<Fetch<T>>,
    answers: seq<Return<T>>)

  function PcOf<T>(s: State<T>, t: nat): Pc { if t in s.threads then s.threads[t] else Outside }

  predicate HoldsRead(pc: Pc) { pc.Reading? }

  predicate HoldsWrite(pc: Pc) { pc.Writing? || pc.Retrieving? }

  datatype Action<T> =
    | Tick(d: nat)
    | RLock(t: nat)
    | CheckShared(t: nat)
    | Lock(t: nat)
    | CheckExclusive(t: nat)
    | Retrieved(t: nat, value: T)
    | RetrieverFailed(t: nat)

  function Move<T>(s: State<T>, t: nat, pc: Pc): State<T> { s.(threads := s.threads[t := pc]) }

  function GiveBack<T>(s: State<T>, t: nat, reading: int): State<T> {
    Move(s, t, Outside).(answers := s.answers + [Return(reading, s.current, |s.fetches|)])
  }

  ghost predicate NoWriter<T>(s: State<T>) { forall t :: !HoldsWrite(PcOf(s, t)) }

  ghost predicate NoHolder<T>(s: State<T>) { forall t :: !HoldsWrite(PcOf(s, t)) && !HoldsRead(PcOf(s, t)) }

  ghost predicate Enabled<T>(s: State<T>, a: Action<T>) {
    match a
    case Tick(_) => true
    case RLock(t) => PcOf(s, t).Outside? && NoWriter(s)
    case CheckShared(t) => PcOf(s, t).Reading?
    case Lock(t) => PcOf(s, t).Upgrading? && NoHolder(s)
    case CheckExclusive(t) => PcOf(s, t).Writing?
    case Retrieved(t, _) => PcOf(s, t).Retrieving?
    case RetrieverFailed(t) => PcOf(s, t).Retrieving?
  }

  ghost function Step<T>(expireAfter: int, s: State<T>, a: Action<T>): State<T> {
    if !Enabled(s, a) then s
    else
      match a
      case Tick(d) => s.(clock := s.clock + d)
      case RLock(t) => Move(s, t, Reading)
      case CheckShared(t) =>
        if Stale(s.clock, s.fetchedAt, expireAfter) then Move(s, t, Upgrading) else GiveBack(s, t, s.clock)
      case Lock(t) => Move(s, t, Writing)
      case CheckExclusive(t) =>
        if StillFresh(s.clock, s.fetchedAt, expireAfter) then GiveBack(s, t, s.clock)
        else Move(s, t, Retrieving(s.clock))
      case Retrieved(t, v) =>
        var now := PcOf(s, t).now;
        GiveBack(s.(current := Some(v), fetchedAt := now, fetches := s.fetches + [Fetch(now, v)]), t, now)
      case RetrieverFailed(t) => Move(s, t, Outside)
  }

  ghost function Run<T>(expireAfter: int, s: State<T>, actions: seq<Action<T>>): State<T>
    decreases |actions|
  {
    if actions == [] then s else Run(expireAfter, Step(expireAfter, s, actions[0]), actions[1..])
  }

  lemma StepMovesOne<T>(expireAfter: int, s: State<T>, a: Action<T>)
    ensures forall u :: a.Tick? || u != a.t ==> PcOf(Step(expireAfter, s, a), u) == PcOf(s, u)
  {
  }

  ghost predicate Initial<T>(s: State<T>) {
    && s.current.None? && s.fetchedAt == UNSET && s.fetches == [] && s.answers == []
    && forall t :: PcOf(s, t).Outside?
  }

  /** The cache holds the result of the last successful retrieval, with its time; nothing before the
      first. */
  ghost predicate HoldsLatest<T>(s: State<T>) {
    if s.fetches == [] then s.current.None? && s.fetchedAt == UNSET
    else
      var last := s.fetches[|s.fetches| - 1];
      s.current == Some(last.value) && s.fetchedAt == last.at > UNSET
  }

  ghost predicate Spaced<T>(expireAfter: int, fetches: seq<Fetch<T>>) {
    forall i, j :: 0 <= i < |fetches| && 0 <= j < |fetches| && j == i + 1 ==> Elapsed(fetches[j].at, fetches[i].at) > expireAfter
  }

  /** Locks exclude each other, and whoever is retrieving found the cache expired; nobody can have
      refreshed it since. */
  ghost predicate LocksWork<T>(expireAfter: int, s: State<T>) {
    && (forall t, u :: HoldsWrite(PcOf(s, t)) && (HoldsWrite(PcOf(s, u)) || HoldsRead(PcOf(s, u))) ==> t == u)
    && (forall t :: PcOf(s, t).Retrieving? ==> !StillFresh(PcOf(s, t).now, s.fetchedAt, expireAfter))
  }

  /** What a return may have been. */
  ghost predicate ReturnOk<T>(expireAfter: int, fetches: seq<Fetch<T>>, r: Return<T>) {
    if r.fetches == 0 then r.value.None? && Elapsed(r.reading, UNSET) <= expireAfter
    else
      && r.fetches <= |fetches|
      && r.value == Some(fetches[r.fetches - 1].value)
      && Elapsed(r.reading, fetches[r.fetches - 1].at) <= expireAfter
  }

  ghost predicate Inv<T>(expireAfter: int, s: State<T>) {
    && HoldsLatest(s)
    && LocksWork(expireAfter, s)
    && Spaced(expireAfter, s.fetches)
    && forall r :: r in s.answers ==> ReturnOk(expireAfter, s.fetches, r)
  }

  lemma StepKeepsLocks<T>(expireAfter: int, s: State<T>, a: Action<T>)
    requires LocksWork(expireAfter, s)
    ensures LocksWork(expireAfter, Step(expireAfter, s, a))
  {
    var z := Step(expireAfter, s, a);
    StepMovesOne(expireAfter, s, a);
    if !a.Tick? {
      assert HoldsWrite(PcOf(s, a.t)) ==> forall u :: u != a.t ==> !HoldsWrite(PcOf(s, u)) && !HoldsRead(PcOf(s, u));
    }
  }

  lemma StepKeepsReturns<T>(expireAfter: int, s: State<T>, a: Action<T>)
    requires 0 <= expireAfter && Inv(expireAfter, s)
    ensures forall r :: r in Step(expireAfter, s, a).answers ==> ReturnOk(expireAfter, Step(expireAfter, s, a).fetches, r)
  {
    var z := Step(expireAfter, s, a);
    forall r | r in z.answers ensures ReturnOk(expireAfter, z.fetches, r) {
      if r in s.answers {
        assert ReturnOk(expireAfter, s.fetches, r);
      }
    }
  }

  lemma AppendSpaced<T>(expireAfter: int, fetches: seq<Fetch<T>>, f: Fetch<T>)
    requires Spaced(expireAfter, fetches)
    requires fetches != [] ==> Elapsed(f.at, fetches[|fetches| - 1].at) > expireAfter
    ensures Spaced(expireAfter, fetches + [f])
  {
  }

  lemma StepKeepsSpacing<T>(expireAfter: int, s: State<T>, a: Action<T>)
    requires 0 <= expireAfter && HoldsLatest(s) && LocksWork(expireAfter, s) && Spaced(expireAfter, s.fetches)
    ensures HoldsLatest(Step(expireAfter, s, a)) && Spaced(expireAfter, Step(expireAfter, s, a).fetches)
  {
    var z := Step(expireAfter, s, a);
    if a.Retrieved? && PcOf(s, a.t).Retrieving? {
      var now := PcOf(s, a.t).now;
      assert !StillFresh(now, s.fetchedAt, expireAfter);
      AppendSpaced(expireAfter, s.fetches, Fetch(now, a.value));
    } else {
      assert z.fetches == s.fetches && z.current == s.current && z.fetchedAt == s.fetchedAt;
    }
  }

  lemma StepKeepsInv<T>(expireAfter: int, s: State<T>, a: Action<T>)
    requires 0 <= expireAfter && Inv(expireAfter, s)
    ensures Inv(expireAfter, Step(expireAfter, s, a))
  {
    StepKeepsLocks(expireAfter, s, a);
    StepKeepsSpacing(expireAfter, s, a);
    StepKeepsReturns(expireAfter, s, a);
  }

  lemma {:induction false} RunKeepsInv<T>(expireAfter: int, s: State<T>, actions: seq<Action<T>>)
    requires 0 <= expireAfter && Inv(expireAfter, s)
    ensures Inv(expireAfter, Run(expireAfter, s, actions))
    decreases |actions|
  {
    if actions != [] {
      StepKeepsInv(expireAfter, s, actions[0]);
      RunKeepsInv(expireAfter, Step(expireAfter, s, actions[0]), actions[1..]);
    }
  }

  lemma EveryRunKeepsInv<T>(expireAfter: int, s: State<T>, actions: seq<Action<T>>)
    requires 0 <= expireAfter && Initial(s)
    ensures Inv(expireAfter, Run(expireAfter, s, actions))
  {
    RunKeepsInv(expireAfter, s, actions);
  }

  /** For any number of threads and any interleaving, two successive successful retrievals lie more than
      `expireAfter` apart: whoever waited behind a refresh finds it done. */
  lemma RetrievalsAreSpaced<T>(expireAfter: int, s: State<T>, actions: seq<Action<T>>)
    requires 0 <= expireAfter && Initial(s)
    ensures var z := Run(expireAfter, s, actions);
            forall i, j :: 0 <= i < |z.fetches| && 0 <= j < |z.fetches| && j == i + 1 ==>
                             z.fetches[j].at - z.fetches[i].at > expireAfter
  {
    EveryRunKeepsInv(expireAfter, s, actions);
  }

  // ---- what the log means, told by the actions and the clock alone ----

  /** The state after the first `n` actions. */
  ghost function At<T>(expireAfter: int, s: State<T>, actions: seq<Action<T>>, n: nat): State<T>
    requires n <= |actions|
  {
    Run(expireAfter, s, actions[..n])
  }

  lemma NextAt<T>(expireAfter: int, s: State<T>, actions: seq<Action<T>>, n: nat)
    requires n < |actions|
    ensures At(expireAfter, s, actions, n + 1) == Step(expireAfter, At(expireAfter, s, actions, n), actions[n])
  {
    assert actions[..n + 1] == actions[..n] + [actions[n]];
    RunConcat(expireAfter, s, actions[..n], [actions[n]]);
    var x := At(expireAfter, s, actions, n);
    assert [actions[n]][1..] == [];
    assert Run(expireAfter, x, [actions[n]]) == Step(expireAfter, x, actions[n]);
  }

  predicate Ends<T>(a: Action<T>, t: nat) { (a.Retrieved? || a.RetrieverFailed?) && a.t == t }

  /** Thread `t` decides at action `i` to retrieve, and at action `j` the retriever answers it. */
  ghost predicate Retrieval<T>(expireAfter: int, s: State<T>, actions: seq<Action<T>>, i: nat, j: nat, t: nat) {
    && i < j < |actions|
    && actions[i] == CheckExclusive(t) && actions[j].Retrieved? && actions[j].t == t
    && PcOf(At(expireAfter, s, actions, i), t).Writing?
    && PcOf(At(expireAfter, s, actions, i + 1), t).Retrieving?
    && forall k :: i < k < j ==> !Ends(actions[k], t)
  }

  /** While the retriever works, whatever others do and however long it takes, the thread keeps the reading it
      took before. */
  lemma {:induction false} RetrieverHoldsReading<T>(
    expireAfter: int, s: State<T>, actions: seq<Action<T>>, i: nat, n: nat, t: nat)
    requires i < n <= |actions| && actions[i] == CheckExclusive(t)
    requires PcOf(At(expireAfter, s, actions, i), t).Writing?
    requires PcOf(At(expireAfter, s, actions, i + 1), t).Retrieving?
    requires forall k :: i < k < n ==> !Ends(actions[k], t)
    ensures PcOf(At(expireAfter, s, actions, n), t) == Retrieving(At(expireAfter, s, actions, i).clock)
  {
    NextAt(expireAfter, s, actions, n - 1);
    if n > i + 1 {
      RetrieverHoldsReading(expireAfter, s, actions, i, n - 1, t);
      StepMovesOne(expireAfter, At(expireAfter, s, actions, n - 1), actions[n - 1]);
    }
  }

  /** A retrieval is logged and stored with its value and with the clock as it was before the retriever was
      asked. */
  lemma RetrievalIsStampedBefore<T>(expireAfter: int, s: State<T>, actions: seq<Action<T>>, i: nat, j: nat, t: nat)
    requires Retrieval(expireAfter, s, actions, i, j, t)
    ensures var before, after := At(expireAfter, s, actions, j), At(expireAfter, s, actions, j + 1);
            var clock := At(expireAfter, s, actions, i).clock;
            && after.fetches == before.fetches + [Fetch(clock, actions[j].value)]
            && after.current == Some(actions[j].value) && after.fetchedAt == clock
            && after.answers == before.answers + [Return(clock, Some(actions[j].value), |before.fetches| + 1)]
  {
    RetrieverHoldsReading(expireAfter, s, actions, i, j, t);
    NextAt(expireAfter, s, actions, j);
  }

  /** A thread inside the retriever got there by a decision it has not come back from. */
  lemma {:induction false} DecisionBehind<T>(expireAfter: int, s: State<T>, actions: seq<Action<T>>, n: nat, t: nat)
    returns (i: nat)
    requires Initial(s) && n <= |actions| && PcOf(At(expireAfter, s, actions, n), t).Retrieving?
    ensures i < n && actions[i] == CheckExclusive(t)
    ensures PcOf(At(expireAfter, s, actions, i), t).Writing?
    ensures PcOf(At(expireAfter, s, actions, i + 1), t).Retrieving?
    ensures forall k :: i < k < n ==> !Ends(actions[k], t)
  {
    assert n > 0;
    var x := At(expireAfter, s, actions, n - 1);
    NextAt(expireAfter, s, actions, n - 1);
    StepMovesOne(expireAfter, x, actions[n - 1]);
    if PcOf(x, t).Retrieving? {
      i := DecisionBehind(expireAfter, s, actions, n - 1, t);
    } else {
      i := n - 1;
    }
  }

  /** Every entry of the log is such a retrieval, in order. */
  lemma {:induction false} EntryIsARetrieval<T>(
    expireAfter: int, s: State<T>, actions: seq<Action<T>>, n: nat, entry: nat)
    returns (i: nat, j: nat, t: nat)
    requires Initial(s) && n <= |actions| && entry < |At(expireAfter, s, actions, n).fetches|
    ensures j < n && Retrieval(expireAfter, s, actions, i, j, t)
    ensures |At(expireAfter, s, actions, j).fetches| == entry
    ensures At(expireAfter, s, actions, n).fetches[entry]
         == Fetch(At(expireAfter, s, actions, i).clock, actions[j].value)
  {
    assert n > 0;
    var x := At(expireAfter, s, actions, n - 1);
    NextAt(expireAfter, s, actions, n - 1);
    if entry < |x.fetches| {
      i, j, t := EntryIsARetrieval(expireAfter, s, actions, n - 1, entry);
    } else {
      j, t := n - 1, actions[n - 1].t;
      i := DecisionBehind(expireAfter, s, actions, j, t);
      RetrievalIsStampedBefore(expireAfter, s, actions, i, j, t);
    }
  }

  /** The last retrieval before the n-th action has this reading and answered so. */
  ghost predicate LastRetrieval<T>(
    expireAfter: int, s: State<T>, actions: seq<Action<T>>, n: nat, i: nat, j: nat, t: nat)
  {
    && j < n <= |actions| && Retrieval(expireAfter, s, actions, i, j, t)
    && |At(expireAfter, s, actions, j).fetches| + 1 == |At(expireAfter, s, actions, n).fetches|
  }

  lemma CacheIsLastRetrieval<T>(expireAfter: int, s: State<T>, actions: seq<Action<T>>, n: nat)
    returns (i: nat, j: nat, t: nat)
    requires 0 <= expireAfter && Initial(s) && n <= |actions| && At(expireAfter, s, actions, n).fetches != []
    ensures LastRetrieval(expireAfter, s, actions, n, i, j, t)
    ensures var z := At(expireAfter, s, actions, n);
            z.current == Some(actions[j].value) && z.fetchedAt == At(expireAfter, s, actions, i).clock != UNSET
  {
    EveryRunKeepsInv(expireAfter, s, actions[..n]);
    i, j, t := EntryIsARetrieval(expireAfter, s, actions, n, |At(expireAfter, s, actions, n).fetches| - 1);
  }

  /** What a check under the read lock does, by the clock now and before the last retrieval: it gives back that
      retrieval's value exactly when there was one and no more than `expireAfter` has gone by since, and
      otherwise lets go of the lock. */
  lemma SharedCheck<T>(expireAfter: int, s: State<T>, actions: seq<Action<T>>, n: nat, t: nat)
    returns (i: nat, j: nat, u: nat)
    requires 0 <= expireAfter < MAX_INT64 && Initial(s) && n < |actions| && actions[n] == CheckShared(t)
    requires PcOf(At(expireAfter, s, actions, n), t).Reading?
    ensures var x, z := At(expireAfter, s, actions, n), At(expireAfter, s, actions, n + 1);
            if x.fetches == [] then z == Move(x, t, Upgrading)
            else
              && LastRetrieval(expireAfter, s, actions, n, i, j, u)
              && (if x.clock - At(expireAfter, s, actions, i).clock > expireAfter then z == Move(x, t, Upgrading)
                  else z == Move(x, t, Outside).(answers := x.answers + [Return(x.clock, Some(actions[j].value), |x.fetches|)]))
  {
    NextAt(expireAfter, s, actions, n);
    EveryRunKeepsInv(expireAfter, s, actions[..n]);
    i, j, u := 0, 0, 0;
    if At(expireAfter, s, actions, n).fetches != [] {
      i, j, u := CacheIsLastRetrieval(expireAfter, s, actions, n);
    }
  }

  /** The same under the write lock, where the alternative is to retrieve. Before the first retrieval the clock
      itself decides, as if that had come at the zero time. */
  lemma ExclusiveCheck<T>(expireAfter: int, s: State<T>, actions: seq<Action<T>>, n: nat, t: nat)
    returns (i: nat, j: nat, u: nat)
    requires 0 <= expireAfter < MAX_INT64 && Initial(s) && n < |actions| && actions[n] == CheckExclusive(t)
    requires PcOf(At(expireAfter, s, actions, n), t).Writing?
    ensures var x, z := At(expireAfter, s, actions, n), At(expireAfter, s, actions, n + 1);
            if x.fetches == [] then
              if x.clock > expireAfter then z == Move(x, t, Retrieving(x.clock))
              else z == Move(x, t, Outside).(answers := x.answers + [Return(x.clock, None, 0)])
            else
              && LastRetrieval(expireAfter, s, actions, n, i, j, u)
              && (if x.clock - At(expireAfter, s, actions, i).clock > expireAfter then z == Move(x, t, Retrieving(x.clock))
                  else z == Move(x, t, Outside).(answers := x.answers + [Return(x.clock, Some(actions[j].value), |x.fetches|)]))
  {
    NextAt(expireAfter, s, actions, n);
    EveryRunKeepsInv(expireAfter, s, actions[..n]);
    i, j, u := 0, 0, 0;
    if At(expireAfter, s, actions, n).fetches != [] {
      i, j, u := CacheIsLastRetrieval(expireAfter, s, actions, n);
    }
  }

  /** Every return without error, at whatever action of whatever run, is of the latest retrieval that had
      succeeded by then; and unless it is that retrieval's own, no more than `expireAfter` has gone by on the
      clock since before its retriever was asked. */
  lemma ReturnsAreFresh<T>(expireAfter: int, s: State<T>, actions: seq<Action<T>>, n: nat)
    returns (i: nat, j: nat, t: nat)
    requires 0 <= expireAfter < MAX_INT64 && Initial(s) && n < |actions|
    requires var x, z := At(expireAfter, s, actions, n), At(expireAfter, s, actions, n + 1);
             |z.answers| > |x.answers| && z.answers[|z.answers| - 1].value.Some?
    ensures LastRetrieval(expireAfter, s, actions, n + 1, i, j, t)
    ensures var x, z := At(expireAfter, s, actions, n), At(expireAfter, s, actions, n + 1);
            && |z.answers| == |x.answers| + 1
            && z.answers[|x.answers|].value == Some(actions[j].value)
            && (j != n ==> x.clock - At(expireAfter, s, actions, i).clock <= expireAfter)
  {
    NextAt(expireAfter, s, actions, n);
    var x := At(expireAfter, s, actions, n);
    i, j, t := 0, 0, 0;
    if actions[n].Retrieved? {
      j, t := n, actions[n].t;
      i := DecisionBehind(expireAfter, s, actions, n, t);
      RetrievalIsStampedBefore(expireAfter, s, actions, i, j, t);
    } else if actions[n].CheckShared? || actions[n].CheckExclusive? {
      EveryRunKeepsInv(expireAfter, s, actions[..n]);
      i, j, t := CacheIsLastRetrieval(expireAfter, s, actions, n);
    }
  }

  lemma {:induction false} LogGrows<T>(expireAfter: int, s: State<T>, actions: seq<Action<T>>, m: nat, n: nat)
    requires m <= n <= |actions|
    ensures At(expireAfter, s, actions, m).fetches <= At(expireAfter, s, actions, n).fetches
  {
    if m < n {
      LogGrows(expireAfter, s, actions, m, n - 1);
      NextAt(expireAfter, s, actions, n - 1);
    }
  }

  /** So any two retrievals, of whatever threads, were decided on more than `expireAfter` apart on the clock,
      if one directly follows the other. */
  lemma DecisionsAreSpaced<T>(
    expireAfter: int, s: State<T>, actions: seq<Action<T>>, i: nat, j: nat, t: nat, i': nat, j': nat, t': nat)
    requires 0 <= expireAfter && Initial(s)
    requires Retrieval(expireAfter, s, actions, i, j, t) && Retrieval(expireAfter, s, actions, i', j', t')
    requires |At(expireAfter, s, actions, j').fetches| == |At(expireAfter, s, actions, j).fetches| + 1
    ensures At(expireAfter, s, actions, i').clock - At(expireAfter, s, actions, i).clock > expireAfter
  {
    RetrievalIsStampedBefore(expireAfter, s, actions, i, j, t);
    RetrievalIsStampedBefore(expireAfter, s, actions, i', j', t');
    if j' < j {
      LogGrows(expireAfter, s, actions, j', j);
    } else {
      LogGrows(expireAfter, s, actions, j + 1, j' + 1);
      RetrievalsAreSpaced(expireAfter, s, actions[..j' + 1]);
      var first, last := At(expireAfter, s, actions, j + 1).fetches, At(expireAfter, s, actions, j' + 1).fetches;
      var k := |At(expireAfter, s, actions, j).fetches|;
      assert first[k] == last[k] && first[k].at == At(expireAfter, s, actions, i).clock;
      assert last[k + 1].at == At(expireAfter, s, actions, i').clock;
      assert last == Run(expireAfter, s, actions[..j' + 1]).fetches && k + 1 < |last|;
      assert last[k + 1].at - last[k].at > expireAfter;
    }
  }

  /** The value is there exactly when the time is. */
  lemma ValueIffTime<T>(expireAfter: int, s: State<T>, actions: seq<Action<T>>)
    requires 0 <= expireAfter && Initial(s)
    ensures var z := Run(expireAfter, s, actions); z.current.Some? <==> z.fetchedAt != UNSET
  {
    EveryRunKeepsInv(expireAfter, s, actions);
  }

  /** A failed retrieval changes nothing but the thread that ran it. */
  lemma FailureLeavesCache<T>(expireAfter: int, s: State<T>, t: nat)
    ensures var z := Step(expireAfter, s, RetrieverFailed(t));
            z.current == s.current && z.fetchedAt == s.fetchedAt && z.fetches == s.fetches && z.answers == s.answers
  {
  }

  /** `Get` can return nothing and no error: exactly when the cache is unset and the clock reads no more
      than `expireAfter` past the zero time, because the second check takes the unset time for a time. */
  lemma EmptyReturnIffEarlyClock<T>(expireAfter: int, s: State<T>, t: nat)
    requires 0 <= expireAfter && Inv(expireAfter, s) && PcOf(s, t).Writing?
    ensures var z := Step(expireAfter, s, CheckExclusive(t));
            (|z.answers| > |s.answers| && z.answers[|z.answers| - 1].value.None?)
            <==> s.fetches == [] && Elapsed(s.clock, UNSET) <= expireAfter
  {
  }

  /** On a clock that starts later than that, which every real clock does, nothing is never returned. */
  lemma LateClockNeverReturnsNothing<T>(expireAfter: int, s: State<T>, actions: seq<Action<T>>)
    requires 0 <= expireAfter < MAX_INT64 && Initial(s) && s.clock > expireAfter
    ensures forall r :: r in Run(expireAfter, s, actions).answers ==> r.value.Some?
  {
    LateRunNeverReturnsNothing(expireAfter, s, actions);
  }

  lemma {:induction false} LateRunNeverReturnsNothing<T>(expireAfter: int, s: State<T>, actions: seq<Action<T>>)
    requires 0 <= expireAfter < MAX_INT64 && Inv(expireAfter, s) && s.clock > expireAfter
    requires forall r :: r in s.answers ==> r.value.Some?
    ensures forall r :: r in Run(expireAfter, s, actions).answers ==> r.value.Some?
    decreases |actions|
  {
    if actions != [] {
      StepKeepsInv(expireAfter, s, actions[0]);
      LateRunNeverReturnsNothing(expireAfter, Step(expireAfter, s, actions[0]), actions[1..]);
    }
  }

  // ---- one call by itself ----

  /** What one undisturbed call makes of the cache: its two clock readings, and what the retriever would
      answer. The result is an error where the retriever fails. */
  function Alone<T>(expireAfter: int, current: Option<T>, fetchedAt: int, first: int, second: int, answer: Option<T>):
    (Option<T>, int, Result<Option<T>, ()>)
  {
    if !Stale(first, fetchedAt, expireAfter) || StillFresh(second, fetchedAt, expireAfter) then (current, fetchedAt, Ok(current))
    else if answer.None? then (current, fetchedAt, Err(()))
    else (answer, second, Ok(answer))
  }

  class Atom<T(0)> {
    const expireAfter: int
    var current: Option<T>
    var currentFetchedAt: int

    constructor (expireAfter: int)
      ensures this.expireAfter == expireAfter && current == None && currentFetchedAt == UNSET
    {
      this.expireAfter := expireAfter;
      current, currentFetchedAt := None, UNSET;
    }

    method Get(first: int, second: int, answer: Option<T>) returns (r: Result<Option<T>, ()>)
      modifies this
      ensures (current, currentFetchedAt, r) ==
              Alone(expireAfter, old(current), old(currentFetchedAt), first, second, answer)
    {
      var now := first;
      if currentFetchedAt == UNSET || Elapsed(now, currentFetchedAt) > expireAfter {
        now := second;
        if Elapsed(now, currentFetchedAt) <= expireAfter {
          return Ok(current);
        }
        if answer.None? {
          return Err(());
        }
        current := answer;
        currentFetchedAt := now;
        return Ok(current);
      }
      return Ok(current);
    }
  }

  ghost predicate Idle<T>(s: State<T>) { forall u :: PcOf(s, u).Outside? }

  ghost predicate OnlyInside<T>(s: State<T>, t: nat, pc: Pc) { PcOf(s, t) == pc && forall u :: u != t ==> PcOf(s, u).Outside? }

  lemma SharedHalf<T>(expireAfter: int, s: State<T>, t: nat)
    requires Idle(s)
    ensures var z := Run(expireAfter, s, [RLock(t), CheckShared(t)]);
            if Stale(s.clock, s.fetchedAt, expireAfter)
            then OnlyInside(z, t, Upgrading) && z == s.(threads := z.threads)
            else Idle(z) && z == s.(threads := z.threads, answers := s.answers + [Return(s.clock, s.current, |s.fetches|)])
  {
    var s1 := Step(expireAfter, s, RLock(t));
    TwoSteps(expireAfter, s, RLock(t), CheckShared(t));
    StepMovesOne(expireAfter, s, RLock(t));
    assert OnlyInside(s1, t, Reading);
    StepMovesOne(expireAfter, s1, CheckShared(t));
  }

  lemma UpgradeHalf<T>(expireAfter: int, s: State<T>, t: nat, wait: nat)
    requires OnlyInside(s, t, Upgrading)
    ensures var z := Run(expireAfter, s, [Lock(t), Tick(wait)]);
            OnlyInside(z, t, Writing) && z == s.(threads := z.threads, clock := s.clock + wait)
  {
    TwoSteps(expireAfter, s, Lock(t), Tick(wait));
    StepMovesOne(expireAfter, s, Lock(t));
    StepMovesOne(expireAfter, Step(expireAfter, s, Lock(t)), Tick(wait));
  }

  lemma ExclusiveHalf<T>(expireAfter: int, s: State<T>, t: nat, answer: Option<T>)
    requires OnlyInside(s, t, Writing)
    ensures var last := if answer.None? then RetrieverFailed(t) else Retrieved(t, answer.value);
            var z := Run(expireAfter, s, [CheckExclusive(t), last]);
            && Idle(z)
            && if StillFresh(s.clock, s.fetchedAt, expireAfter) then
                 z == s.(threads := z.threads, answers := s.answers + [Return(s.clock, s.current, |s.fetches|)])
               else if answer.None? then z == s.(threads := z.threads)
               else
                 && z.current == answer && z.fetchedAt == s.clock
                 && z.answers == s.answers + [Return(s.clock, answer, |s.fetches| + 1)]
  {
    var last := if answer.None? then RetrieverFailed(t) else Retrieved(t, answer.value);
    TwoSteps(expireAfter, s, CheckExclusive(t), last);
    StepMovesOne(expireAfter, s, CheckExclusive(t));
    StepMovesOne(expireAfter, Step(expireAfter, s, CheckExclusive(t)), last);
  }

  /** The undisturbed call is one interleaving of the steps: a thread that meets no other takes the cache
      where `Alone` says, and logs the answer it says. */
  lemma AloneIsAnInterleaving<T>(expireAfter: int, s: State<T>, t: nat, wait: nat, answer: Option<T>)
    returns (actions: seq<Action<T>>)
    requires Idle(s)
    ensures var z := Run(expireAfter, s, actions);
            var (current, fetchedAt, r) := Alone(expireAfter, s.current, s.fetchedAt, s.clock, s.clock + wait, answer);
            && Idle(z)
            && z.current == current && z.fetchedAt == fetchedAt
            && (r.Err? ==> z.answers == s.answers)
            && (r.Ok? ==> |z.answers| == |s.answers| + 1 && z.answers[|s.answers|].value == r.value)
  {
    actions := [RLock(t), CheckShared(t)];
    SharedHalf(expireAfter, s, t);
    var half := Run(expireAfter, s, actions);
    if Stale(s.clock, s.fetchedAt, expireAfter) {
      var last := if answer.None? then RetrieverFailed(t) else Retrieved(t, answer.value);
      UpgradeHalf(expireAfter, half, t, wait);
      RunConcat(expireAfter, s, actions, [Lock(t), Tick(wait)]);
      actions := actions + [Lock(t), Tick(wait)];
      ExclusiveHalf(expireAfter, Run(expireAfter, half, [Lock(t), Tick(wait)]), t, answer);
      RunConcat(expireAfter, s, actions, [CheckExclusive(t), last]);
      actions := actions + [CheckExclusive(t), last];
    }
  }

  lemma TwoSteps<T>(expireAfter: int, s: State<T>, a: Action<T>, b: Action<T>)
    ensures Run(expireAfter, s, [a, b]) == Step(expireAfter, Step(expireAfter, s, a), b)
  {
    assert [a, b][1..] == [b];
    assert Run(expireAfter, Step(expireAfter, s, a), [b]) == Step(expireAfter, Step(expireAfter, s, a), b);
  }

  lemma {:induction false} RunConcat<T>(expireAfter: int, s: State<T>, actions: seq<Action<T>>, more: seq<Action<T>>)
    ensures Run(expireAfter, s, actions + more) == Run(expireAfter, Run(expireAfter, s, actions), more)
    decreases |actions|
  {
    if actions == [] {
      assert actions + more == more;
    } else {
      assert (actions + more)[1..] == actions[1..] + more;
      RunConcat(expireAfter, Step(expireAfter, s, actions[0]), actions[1..], more);
    }
  }
}
