/**
  Pushing billing entities to an external accounting provider over one
  connection (internal/service/accounting.go:162-204, 293-343, 436-534, 566-587;
  internal/adapter/db/accounting_mapping_repository.go:25-66).

  A mapping remembers each entity's external id and when it was last synced; an
  incremental sweep skips what has not changed since.
 */
module AccountingSync {
  import opened Options

  /** A billing entity: what a push would send, and its updated_at (absent when the row predates the column). */
  datatype Source = Source(version: int, updatedAt: Option<nat>)
  datatype Mapping = Mapping(ext: nat, stampedAt: nat)
  /** An object at the provider: the entity it was created for and the version it holds. */
  datatype Remote = Remote(owner: nat, version: int)

  datatype State = State(source: map<nat, Source>, mapping: map<nat, Mapping>, remote: map<nat, Remote>,
                         nextExt: nat, clock: nat)

  /** A call to the provider: it may not be carried out, or be carried out and its answer lost. */
  datatype Call = NotCarried | Unanswered | Answered

  /** How an operation's calls go: reading the mapping, updating at the provider, clearing the mapping, creating at
      the provider, and writing the mapping. */
  datatype Outcome = Outcome(read: bool, update: Call, clear: bool, create: Call, write: bool)

  const FINE := Outcome(true, Answered, true, Answered, true)

  /** lookupMapping: a failed read behaves as no mapping. */
  function Lookup(s: State, e: nat, read: bool): Option<nat> {
    if read && e in s.mapping then Some(s.mapping[e].ext) else None
  }

  /** upsertMapping, stamped by the database clock. */
  function Stamped(s: State, e: nat, ext: nat, write: bool): State {
    if write then s.(mapping := s.mapping[e := Mapping(ext, s.clock + 1)], clock := s.clock + 1) else s
  }

  function Created(s: State, e: nat, version: int, write: bool): State {
    Stamped(s.(remote := s.remote[s.nextExt := Remote(e, version)], nextExt := s.nextExt + 1), e, s.nextExt, write)
  }

  /** Without an answer the id of the new object is not known, and nothing is stored. */
  function CreatedBy(s: State, e: nat, version: int, o: Outcome): State {
    if o.create.NotCarried? then s else Created(s, e, version, o.write && o.create.Answered?)
  }

  function UpdatedBy(s: State, e: nat, ext: nat, version: int, o: Outcome): State {
    Stamped(s.(remote := s.remote[ext := Remote(e, version)]), e, ext, o.write && o.update.Answered?)
  }

  /** syncEntity: create when unmapped, update when mapped, and re-create once when the provider answers that the
      mapped object is gone. */
  function Synced(s: State, e: nat, version: int, o: Outcome): State {
    match Lookup(s, e, o.read)
    case None => CreatedBy(s, e, version, o)
    case Some(ext) =>
      if o.update.NotCarried? then s
      else if ext in s.remote then UpdatedBy(s, e, ext, version, o)
      else if o.update.Unanswered? then s
      else CreatedBy(if o.clear then s.(mapping := s.mapping - {e}) else s, e, version, o)
  }

  /** Whether it succeeds. */
  predicate Succeeds(s: State, e: nat, o: Outcome) {
    match Lookup(s, e, o.read)
    case None => o.create.Answered?
    case Some(ext) => o.update.Answered? && (ext in s.remote || o.create.Answered?)
  }

  /** When the provider answers that the mapped object is gone: a new object is created if that call is carried out,
      and the entity is mapped to it if it is answered and the mapping written; otherwise the stale mapping stays only
      if it could not be cleared. */
  lemma GoneIsRecreated(s: State, e: nat, version: int, o: Outcome)
    requires o.read && e in s.mapping && s.mapping[e].ext !in s.remote && o.update.Answered?
    ensures var t, mapped := Synced(s, e, version, o), o.create.Answered? && o.write;
            && t.remote == (if o.create.NotCarried? then s.remote else s.remote[s.nextExt := Remote(e, version)])
            && (e in t.mapping <==> mapped || !o.clear)
            && (mapped ==> t.mapping[e].ext == s.nextExt && t.mapping[e].stampedAt > s.clock)
            && (!mapped && !o.clear ==> t.mapping[e] == s.mapping[e])
            && (forall f :: f != e ==> (f in t.mapping <==> f in s.mapping))
            && (forall f :: f != e && f in s.mapping ==> t.mapping[f] == s.mapping[f])
  {
  }

  /** ensureEntityRef: create only when there is no mapping. */
  function Ensured(s: State, e: nat, version: int, o: Outcome): State {
    if Lookup(s, e, o.read).Some? then s else CreatedBy(s, e, version, o)
  }

  predicate HasRef(s: State, e: nat, o: Outcome) {
    Lookup(s, e, o.read).Some? || o.create.Answered?
  }

  /** unchangedSinceLastSync: mapped, and the listed row is not newer than the stamp. */
  predicate Unchanged(s: State, e: nat, listed: Source, read: bool) {
    read && listed.updatedAt.Some? && e in s.mapping && listed.updatedAt.value <= s.mapping[e].stampedAt
  }

  // ---- One live object per entity ----

  ghost function LiveSet(s: State, e: nat): set<nat> {
    set x | x in s.remote && s.remote[x].owner == e
  }

  ghost function Live(s: State, e: nat): nat {
    |LiveSet(s, e)|
  }

  predicate MappedLive(s: State, e: nat) {
    e in s.mapping && s.mapping[e].ext in s.remote
  }

  ghost predicate Wired(s: State) {
    && (forall x :: x in s.remote ==> x < s.nextExt)
    && (forall e :: e in s.mapping ==> s.mapping[e].ext < s.nextExt)
    && (forall e :: MappedLive(s, e) ==> s.remote[s.mapping[e].ext].owner == e)
  }

  lemma CreatedCount(s: State, e: nat, version: int, write: bool, f: nat)
    requires Wired(s)
    ensures Live(Created(s, e, version, write), f) == Live(s, f) + (if f == e then 1 else 0)
  {
    var t := Created(s, e, version, write);
    assert t.remote == s.remote[s.nextExt := Remote(e, version)];
    OneMoreObject(s, t, s.nextExt, Remote(e, version), f);
  }

  lemma OneMoreObject(s: State, t: State, x: nat, r: Remote, f: nat)
    requires x !in s.remote && t.remote == s.remote[x := r]
    ensures Live(t, f) == Live(s, f) + (if f == r.owner then 1 else 0)
  {
    LiveSetGrows(s, t, x, r, f);
    assert x !in LiveSet(s, f);
  }

  lemma LiveSetGrows(s: State, t: State, x: nat, r: Remote, f: nat)
    requires x !in s.remote && t.remote == s.remote[x := r]
    ensures LiveSet(t, f) == LiveSet(s, f) + (if f == r.owner then {x} else {})
  {
    forall y ensures y in LiveSet(t, f) <==> y in LiveSet(s, f) || (f == r.owner && y == x) {
      assert y != x ==> (y in t.remote <==> y in s.remote);
    }
  }

  lemma CreatedLive(s: State, e: nat, version: int, write: bool, f: nat)
    requires Wired(s)
    ensures var t := Created(s, e, version, write);
            && Wired(t)
            && Live(t, f) == Live(s, f) + (if f == e then 1 else 0)
            && (MappedLive(t, e) <==> write || MappedLive(s, e))
            && (f != e ==> (MappedLive(t, f) <==> MappedLive(s, f)))
  {
    CreatedCount(s, e, version, write, f);
  }

  /** How many mapping reads and writes of the operation failed, and answers to creates were lost. */
  function Failures(o: Outcome): nat {
    (if o.read then 0 else 1) + (if o.write then 0 else 1) + (if o.create.Unanswered? then 1 else 0)
  }

  ghost predicate Accounted(s: State, failures: multiset<nat>, e: nat) {
    Live(s, e) <= failures[e] + (if MappedLive(s, e) then 1 else 0)
  }

  lemma UpdatedLive(s: State, e: nat, version: int, write: bool, f: nat)
    requires Wired(s) && MappedLive(s, e)
    ensures var ext := s.mapping[e].ext;
            var t := Stamped(s.(remote := s.remote[ext := Remote(e, version)]), e, ext, write);
            Wired(t) && Live(t, f) == Live(s, f) && (MappedLive(t, f) <==> MappedLive(s, f))
  {
    var ext := s.mapping[e].ext;
    var t := Stamped(s.(remote := s.remote[ext := Remote(e, version)]), e, ext, write);
    assert LiveSet(t, f) == LiveSet(s, f);
  }

  lemma ClearedLive(s: State, e: nat, f: nat)
    requires Wired(s) && !MappedLive(s, e)
    ensures var t := s.(mapping := s.mapping - {e});
            Wired(t) && Live(t, f) == Live(s, f) && (MappedLive(t, f) <==> MappedLive(s, f))
  {
  }

  lemma CreatedByLive(s: State, e: nat, version: int, o: Outcome, f: nat)
    requires Wired(s)
    ensures var t := CreatedBy(s, e, version, o);
            && Wired(t)
            && Live(t, f) == Live(s, f) + (if f == e && !o.create.NotCarried? then 1 else 0)
            && (MappedLive(t, e) <==> (o.create.Answered? && o.write) || MappedLive(s, e))
            && (f != e ==> (MappedLive(t, f) <==> MappedLive(s, f)))
  {
    if !o.create.NotCarried? {
      CreatedLive(s, e, version, o.write && o.create.Answered?, f);
    }
  }

  lemma SyncedLive(s: State, e: nat, version: int, o: Outcome, failures: multiset<nat>, f: nat)
    requires Wired(s) && Accounted(s, failures, f)
    ensures Wired(Synced(s, e, version, o))
    ensures Accounted(Synced(s, e, version, o), failures[e := failures[e] + Failures(o)], f)
  {
    match Lookup(s, e, o.read)
    case None => CreatedByLive(s, e, version, o, f);
    case Some(ext) =>
      if ext in s.remote {
        UpdatedLive(s, e, version, o.write && o.update.Answered?, f);
      } else {
        ClearedLive(s, e, f);
        CreatedByLive(s, e, version, o, f);
        CreatedByLive(s.(mapping := s.mapping - {e}), e, version, o, f);
      }
  }

  lemma DeletedLive(s: State, x: nat, failures: multiset<nat>, f: nat)
    requires Wired(s) && Accounted(s, failures, f)
    ensures var t := s.(remote := s.remote - {x}); Wired(t) && Accounted(t, failures, f)
  {
    var t := s.(remote := s.remote - {x});
    if x in s.remote && s.remote[x].owner == f {
      assert LiveSet(t, f) == LiveSet(s, f) - {x};
    } else {
      assert LiveSet(t, f) == LiveSet(s, f);
    }
  }

  // ---- Runs ----

  datatype Step =
    | Edit(e: nat, version: int)
    | List(e: nat)
    | Sync(e: nat, force: bool, o: Outcome)
    | EnsureRef(e: nat, o: Outcome)
    | DeleteAtProvider(x: nat)

  /** `listed` holds the rows a running sweep read; `failures` counts, per entity, failed mapping reads
      and writes and lost answers to creates. */
  datatype World = World(s: State, listed: map<nat, Source>, failures: multiset<nat>)

  const START := World(State(map[], map[], map[], 0, 0), map[], multiset{})

  function Next(w: World, step: Step): World {
    match step
    case Edit(e, version) =>
      w.(s := w.s.(source := w.s.source[e := Source(version, Some(w.s.clock + 1))], clock := w.s.clock + 1))
    case List(e) => if e in w.s.source then w.(listed := w.listed[e := w.s.source[e]]) else w
    case Sync(e, force, o) =>
      if e !in w.listed || (!force && Unchanged(w.s, e, w.listed[e], o.read)) then w
      else w.(s := Synced(w.s, e, w.listed[e].version, o), failures := w.failures[e := w.failures[e] + Failures(o)])
    case EnsureRef(e, o) =>
      if e !in w.s.source then w
      else w.(s := Ensured(w.s, e, w.s.source[e].version, o), failures := w.failures[e := w.failures[e] + Failures(o)])
    case DeleteAtProvider(x) => w.(s := w.s.(remote := w.s.remote - {x}))
  }

  function Run(w: World, steps: seq<Step>): World
    decreases |steps|
  {
    if steps == [] then w else Run(Next(w, steps[0]), steps[1..])
  }

  /** An edit is later than anything before it, and touches its own row only. */
  lemma EditIsNewer(w: World, e: nat, version: int)
    ensures var t := Next(w, Edit(e, version)).s;
            && e in t.source && t.source[e].version == version && t.source[e].updatedAt == Some(t.clock)
            && t.clock > w.s.clock && t.mapping == w.s.mapping && t.remote == w.s.remote
            && (forall f :: f != e ==> (f in t.source <==> f in w.s.source))
            && (forall f :: f != e && f in t.source ==> t.source[f] == w.s.source[f])
  {
  }

  /** An object deleted at the provider is gone, and the next forced sync creates it again under another id. */
  lemma DeletedIsRecreated(w: World, e: nat, version: int)
    requires Wired(w.s) && e in w.s.mapping && w.s.mapping[e].ext in w.s.remote
    ensures var x := w.s.mapping[e].ext;
            var gone := Next(w, DeleteAtProvider(x)).s;
            var t := Synced(gone, e, version, FINE);
            && gone.remote.Keys == w.s.remote.Keys - {x} && gone.mapping == w.s.mapping
            && e in t.mapping && t.mapping[e].ext != x && t.mapping[e].ext in t.remote
            && t.remote[t.mapping[e].ext] == Remote(e, version)
  {
  }

  lemma StepLive(w: World, step: Step, e: nat)
    requires Wired(w.s) && Accounted(w.s, w.failures, e)
    ensures Wired(Next(w, step).s) && Accounted(Next(w, step).s, Next(w, step).failures, e)
  {
    match step
    case Edit(_, _) => assert LiveSet(Next(w, step).s, e) == LiveSet(w.s, e);
    case List(_) =>
    case Sync(f, _, o) => if f in w.listed { SyncedLive(w.s, f, w.listed[f].version, o, w.failures, e); }
    case EnsureRef(f, o) => if f in w.s.source { CreatedByLive(w.s, f, w.s.source[f].version, o, e); }
    case DeleteAtProvider(x) => DeletedLive(w.s, x, w.failures, e);
  }

  lemma {:induction false} RunLive(w: World, steps: seq<Step>, e: nat)
    requires Wired(w.s) && Accounted(w.s, w.failures, e)
    ensures Wired(Run(w, steps).s) && Accounted(Run(w, steps).s, Run(w, steps).failures, e)
    decreases |steps|
  {
    if steps != [] {
      StepLive(w, steps[0], e);
      RunLive(Next(w, steps[0]), steps[1..], e);
    }
  }

  /** Over every run of edits, sweeps, dependency creations and deletions at the provider, with any calls failing,
      an entity has at most one live object plus one per failed mapping read or write and per lost answer to a
      create; so with none of these it has at most one, also after its object was deleted and created again. */
  lemma OneLiveObject(steps: seq<Step>, e: nat)
    ensures Live(Run(START, steps).s, e) <= 1 + Run(START, steps).failures[e]
  {
    assert LiveSet(START.s, e) == {};
    RunLive(START, steps, e);
  }

  /** The push carries out a create. */
  predicate PushCreates(s: State, e: nat, o: Outcome) {
    !o.create.NotCarried? &&
    (Lookup(s, e, o.read).Some? ==> o.update.Answered? && Lookup(s, e, o.read).value !in s.remote)
  }

  /** The step carries out a create for the entity. */
  predicate Creates(w: World, step: Step, e: nat) {
    match step
    case Sync(f, force, o) =>
      f == e && f in w.listed && (force || !Unchanged(w.s, f, w.listed[f], o.read)) && PushCreates(w.s, f, o)
    case EnsureRef(f, o) => f == e && f in w.s.source && Lookup(w.s, f, o.read).None? && !o.create.NotCarried?
    case _ => false
  }

  lemma SyncedCount(s: State, e: nat, version: int, o: Outcome, f: nat)
    requires Wired(s)
    ensures Live(Synced(s, e, version, o), f) == Live(s, f) + (if f == e && PushCreates(s, e, o) then 1 else 0)
  {
    match Lookup(s, e, o.read)
    case None => CreatedByLive(s, e, version, o, f);
    case Some(ext) =>
      if ext in s.remote {
        UpdatedLive(s, e, version, o.write && o.update.Answered?, f);
      } else {
        ClearedLive(s, e, f);
        CreatedByLive(s, e, version, o, f);
        CreatedByLive(s.(mapping := s.mapping - {e}), e, version, o, f);
      }
  }

  lemma StepCount(w: World, step: Step, e: nat)
    requires Wired(w.s)
    ensures Live(Next(w, step).s, e) <= Live(w.s, e) + (if Creates(w, step, e) then 1 else 0)
    ensures Creates(w, step, e) ==> Live(Next(w, step).s, e) == Live(w.s, e) + 1
  {
    match step
    case Edit(_, _) => assert LiveSet(Next(w, step).s, e) == LiveSet(w.s, e);
    case List(_) =>
    case Sync(f, _, o) => if f in w.listed { SyncedCount(w.s, f, w.listed[f].version, o, e); }
    case EnsureRef(f, o) => if f in w.s.source { CreatedByLive(w.s, f, w.s.source[f].version, o, e); }
    case DeleteAtProvider(x) => FewerLive(w.s, x, e);
  }

  lemma FewerLive(s: State, x: nat, e: nat)
    ensures Live(s.(remote := s.remote - {x}), e) <= Live(s, e)
  {
    var t := s.(remote := s.remote - {x});
    assert LiveSet(t, e) + (LiveSet(s, e) - LiveSet(t, e)) == LiveSet(s, e);
  }

  ghost predicate AtMostOneLive(w: World, steps: seq<Step>, e: nat)
    decreases |steps|
  {
    Live(w.s, e) <= 1 && (steps == [] || AtMostOneLive(Next(w, steps[0]), steps[1..], e))
  }

  /** Every create of the entity finds no live object of it. */
  ghost predicate CreatesFit(w: World, steps: seq<Step>, e: nat)
    decreases |steps|
  {
    steps == [] ||
    ((Creates(w, steps[0], e) ==> Live(w.s, e) == 0) && CreatesFit(Next(w, steps[0]), steps[1..], e))
  }

  /** Throughout a run an entity has at most one live object if and only if every create that is carried out for it
      finds none. */
  lemma {:induction false} OneLiveIff(w: World, steps: seq<Step>, e: nat)
    requires Wired(w.s) && Accounted(w.s, w.failures, e) && Live(w.s, e) <= 1
    ensures AtMostOneLive(w, steps, e) <==> CreatesFit(w, steps, e)
    decreases |steps|
  {
    if steps != [] {
      StepCount(w, steps[0], e);
      StepLive(w, steps[0], e);
      if Live(Next(w, steps[0]).s, e) <= 1 {
        OneLiveIff(Next(w, steps[0]), steps[1..], e);
      }
    }
  }

  /** The bound is met: when the answer to a create is lost, the next sweep creates the entity again. */
  lemma LostAnswerDuplicates(e: nat, version: int) returns (steps: seq<Step>)
    ensures var w := Run(START, steps); Live(w.s, e) == 2 && w.failures == multiset{e}
  {
    var lost := Outcome(true, Answered, true, Unanswered, true);
    var listed := Next(Next(START, Edit(e, version)), List(e));
    var once := Next(listed, Sync(e, false, lost));
    var twice := Next(once, Sync(e, false, FINE));
    steps := [Edit(e, version), List(e), Sync(e, false, lost), Sync(e, false, FINE)];
    assert LiveSet(listed.s, e) == {};
    CreatedByLive(listed.s, e, version, lost, e);
    CreatedByLive(once.s, e, version, FINE, e);
    assert Live(twice.s, e) == 2 && twice.failures == multiset{e};
    RunFour(START, steps[0], steps[1], steps[2], steps[3]);
  }

  /** A mapping that cannot be written after a create, or not be read before a sync, costs one object too. */
  lemma FailedMappingDuplicates(e: nat, version: int, unread: bool) returns (steps: seq<Step>)
    ensures var w := Run(START, steps); Live(w.s, e) == 2 && w.failures == multiset{e}
  {
    var first := if unread then FINE else Outcome(true, Answered, true, Answered, false);
    var second := if unread then Outcome(false, Answered, true, Answered, true) else FINE;
    var listed := Next(Next(START, Edit(e, version)), List(e));
    var once := Next(listed, Sync(e, true, first));
    var twice := Next(once, Sync(e, true, second));
    steps := [Edit(e, version), List(e), Sync(e, true, first), Sync(e, true, second)];
    assert LiveSet(listed.s, e) == {};
    CreatedByLive(listed.s, e, version, first, e);
    CreatedByLive(once.s, e, version, second, e);
    assert Live(twice.s, e) == 2 && twice.failures == multiset{e};
    RunFour(START, steps[0], steps[1], steps[2], steps[3]);
  }

  lemma RunFour(w: World, x1: Step, x2: Step, x3: Step, x4: Step)
    ensures Run(w, [x1, x2, x3, x4]) == Next(Next(Next(Next(w, x1), x2), x3), x4)
  {
    RunCons(w, x1, [x2, x3, x4]);
    RunCons(Next(w, x1), x2, [x3, x4]);
    RunCons(Next(Next(w, x1), x2), x3, [x4]);
    RunCons(Next(Next(Next(w, x1), x2), x3), x4, []);
  }

  lemma RunCons(w: World, x: Step, rest: seq<Step>)
    ensures Run(w, [x] + rest) == Run(Next(w, x), rest)
  {
    assert ([x] + rest)[1..] == rest;
  }

  // ---- Incremental against forced ----

  /** The mapping tells the truth about one entity: its object is there, and current unless the row is newer. */
  predicate InStep(s: State, e: nat) {
    e in s.mapping ==>
      && s.mapping[e].ext in s.remote
      && (e in s.source && s.source[e].updatedAt.Some? && s.source[e].updatedAt.value <= s.mapping[e].stampedAt ==>
            s.remote[s.mapping[e].ext] == Remote(e, s.source[e].version))
  }

  ghost predicate AllInStep(s: State) {
    && Wired(s)
    && (forall e, f :: e in s.mapping && f in s.mapping && e != f ==> s.mapping[e].ext != s.mapping[f].ext)
    && (forall e :: InStep(s, e))
  }

  function SyncOne(s: State, e: nat, force: bool): State {
    if e !in s.source || (!force && Unchanged(s, e, s.source[e], true)) then s
    else Synced(s, e, s.source[e].version, FINE)
  }

  /** One leg of syncForTenant, with every call succeeding and no edit in between. */
  function Sweep(s: State, ids: seq<nat>, force: bool): State {
    if ids == [] then s else SyncOne(Sweep(s, ids[..|ids| - 1], force), ids[|ids| - 1], force)
  }

  /** The same with calls that may fail: a failed dirty check counts as changed, a failed push is passed over. */
  function SyncOneWith(s: State, e: nat, force: bool, o: Outcome): State {
    if e !in s.source || (!force && Unchanged(s, e, s.source[e], o.read)) then s
    else Synced(s, e, s.source[e].version, o)
  }

  function SweepWith(s: State, ids: seq<nat>, outs: seq<Outcome>, force: bool): State
    requires |ids| == |outs|
  {
    if ids == [] then s
    else SyncOneWith(SweepWith(s, ids[..|ids| - 1], outs[..|ids| - 1], force), ids[|ids| - 1], force, outs[|ids| - 1])
  }

  lemma SweepNext(s: State, ids: seq<nat>, outs: seq<Outcome>, i: nat, force: bool)
    requires i < |ids| == |outs|
    ensures SweepWith(s, ids[..i + 1], outs[..i + 1], force)
         == SyncOneWith(SweepWith(s, ids[..i], outs[..i], force), ids[i], force, outs[i])
  {
    assert ids[..i + 1][..i] == ids[..i] && outs[..i + 1][..i] == outs[..i];
  }

  predicate AllFine(outs: seq<Outcome>) {
    forall i :: 0 <= i < |outs| ==> outs[i] == FINE
  }

  lemma {:induction false} SweepWithFine(s: State, ids: seq<nat>, outs: seq<Outcome>, force: bool)
    requires |ids| == |outs| && AllFine(outs)
    ensures SweepWith(s, ids, outs, force) == Sweep(s, ids, force)
  {
    if ids != [] {
      SweepWithFine(s, ids[..|ids| - 1], outs[..|ids| - 1], force);
    }
  }

  /** A sweep in which calls fail keeps every entity in step, so the next one, incremental or forced, repairs what it
      missed. */
  lemma {:induction false} FailingSweepKeepsStep(s: State, ids: seq<nat>, outs: seq<Outcome>, force: bool)
    requires AllInStep(s) && |ids| == |outs|
    ensures AllInStep(SweepWith(s, ids, outs, force)) && SweepWith(s, ids, outs, force).source == s.source
  {
    if ids != [] {
      var n := |ids| - 1;
      var before := SweepWith(s, ids[..n], outs[..n], force);
      FailingSweepKeepsStep(s, ids[..n], outs[..n], force);
      if ids[n] in before.source {
        PushInStep(before, ids[n], before.source[ids[n]].version, outs[n]);
      }
    }
  }

  /** So whatever failed in a sweep, the one after it leaves every entity it lists current. */
  lemma NextSweepRepairs(s: State, ids: seq<nat>, outs: seq<Outcome>, force: bool, again: bool, e: nat)
    requires AllInStep(s) && |ids| == |outs| && e in ids && e in s.source
    ensures var t := Sweep(SweepWith(s, ids, outs, force), ids, again);
            && e in t.mapping && t.mapping[e].ext in t.remote
            && t.remote[t.mapping[e].ext] == Remote(e, s.source[e].version)
  {
    FailingSweepKeepsStep(s, ids, outs, force);
    SweepReaches(SweepWith(s, ids, outs, force), ids, again, e);
  }

  /** The provider and the external ids agree; only the stamps may differ. */
  ghost predicate SameAtProvider(s: State, t: State) {
    && s.source == t.source && s.remote == t.remote && s.nextExt == t.nextExt
    && s.mapping.Keys == t.mapping.Keys && forall e :: e in s.mapping ==> s.mapping[e].ext == t.mapping[e].ext
  }

  lemma SyncOneInStep(s: State, e: nat, force: bool)
    requires AllInStep(s)
    ensures AllInStep(SyncOne(s, e, force)) && SyncOne(s, e, force).source == s.source
    ensures e in s.source ==>
              var t := SyncOne(s, e, force);
              && e in t.mapping && t.mapping[e].ext in t.remote
              && t.remote[t.mapping[e].ext] == Remote(e, s.source[e].version)
  {
    assert InStep(s, e);
    if e in s.source && (force || !Unchanged(s, e, s.source[e], true)) {
      PushInStep(s, e, s.source[e].version, FINE);
    }
  }

  lemma CreatedInStep(s: State, e: nat, version: int, write: bool)
    requires AllInStep(s) && e in s.source && version == s.source[e].version
    ensures AllInStep(Created(s, e, version, write))
  {
    var t := Created(s, e, version, write);
    forall f ensures InStep(t, f) {
      assert InStep(s, f);
    }
  }

  lemma UpdatedInStep(s: State, e: nat, version: int, write: bool)
    requires AllInStep(s) && e in s.source && version == s.source[e].version && MappedLive(s, e)
    ensures var ext := s.mapping[e].ext;
            AllInStep(Stamped(s.(remote := s.remote[ext := Remote(e, version)]), e, ext, write))
  {
    var ext := s.mapping[e].ext;
    var t := Stamped(s.(remote := s.remote[ext := Remote(e, version)]), e, ext, write);
    forall f ensures InStep(t, f) {
      assert InStep(s, f);
    }
  }

  /** A push that succeeds puts the entity itself in step. */
  lemma FinePush(s: State, e: nat, version: int)
    requires AllInStep(s)
    ensures var t := Synced(s, e, version, FINE);
            && e in t.mapping && t.mapping[e].ext in t.remote
            && t.remote[t.mapping[e].ext] == Remote(e, version)
  {
    assert InStep(s, e);
  }

  /** In step, a mapped object is there, so a push updates it or does nothing. */
  lemma MappedPush(s: State, e: nat, version: int, o: Outcome)
    requires AllInStep(s) && Lookup(s, e, o.read).Some?
    ensures MappedLive(s, e)
    ensures Synced(s, e, version, o)
         == if o.update.NotCarried? then s else UpdatedBy(s, e, s.mapping[e].ext, version, o)
  {
    assert InStep(s, e);
  }

  lemma PushKeepsStep(s: State, e: nat, version: int, o: Outcome)
    requires AllInStep(s) && e in s.source && version == s.source[e].version
    ensures AllInStep(Synced(s, e, version, o)) && Synced(s, e, version, o).source == s.source
  {
    if Lookup(s, e, o.read).None? {
      CreatedInStep(s, e, version, o.write && o.create.Answered?);
    } else {
      MappedPush(s, e, version, o);
      UpdatedInStep(s, e, version, o.write && o.update.Answered?);
    }
  }

  /** Pushing the current version keeps every entity in step, whichever calls fail; when none does, it puts the entity
      itself in step. */
  lemma PushInStep(s: State, e: nat, version: int, o: Outcome)
    requires AllInStep(s) && e in s.source && version == s.source[e].version
    ensures var t := Synced(s, e, version, o);
            && AllInStep(t) && t.source == s.source
            && (o == FINE ==> e in t.mapping && t.mapping[e].ext in t.remote
                              && t.remote[t.mapping[e].ext] == Remote(e, version))
  {
    PushKeepsStep(s, e, version, o);
    FinePush(s, e, version);
  }

  /** A push that succeeds, from states that agree. */
  lemma PushAgrees(s: State, t: State, e: nat, version: int)
    requires AllInStep(s) && SameAtProvider(s, t)
    ensures SameAtProvider(Synced(s, e, version, FINE), Synced(t, e, version, FINE))
  {
    assert InStep(s, e);
  }

  /** Pushing what has not changed leaves the provider as it was. */
  lemma UnchangedPush(t: State, e: nat)
    requires AllInStep(t) && e in t.source && e in t.mapping
    requires MappedLive(t, e) && t.remote[t.mapping[e].ext] == Remote(e, t.source[e].version)
    ensures SameAtProvider(t, Synced(t, e, t.source[e].version, FINE))
  {
    var ext := t.mapping[e].ext;
    assert t.remote[ext := Remote(e, t.source[e].version)] == t.remote;
  }

  lemma SameTransitive(s: State, t: State, u: State)
    requires SameAtProvider(s, t) && SameAtProvider(t, u)
    ensures SameAtProvider(s, u)
  {
  }

  lemma SyncOneAgrees(s: State, t: State, e: nat)
    requires AllInStep(s) && AllInStep(t) && SameAtProvider(s, t)
    ensures SameAtProvider(SyncOne(s, e, false), SyncOne(t, e, true))
  {
    if e in s.source && Unchanged(s, e, s.source[e], true) {
      assert InStep(s, e) && InStep(t, e);
      UnchangedPush(t, e);
      SameTransitive(s, t, SyncOne(t, e, true));
    } else if e in s.source {
      PushAgrees(s, t, e, s.source[e].version);
    }
  }

  lemma {:induction false} SweepAgrees(s: State, ids: seq<nat>)
    requires AllInStep(s)
    ensures AllInStep(Sweep(s, ids, false)) && AllInStep(Sweep(s, ids, true))
    ensures SameAtProvider(Sweep(s, ids, false), Sweep(s, ids, true))
  {
    if ids != [] {
      var init, e := ids[..|ids| - 1], ids[|ids| - 1];
      SweepAgrees(s, init);
      SyncOneInStep(Sweep(s, init, false), e, false);
      SyncOneInStep(Sweep(s, init, true), e, true);
      SyncOneAgrees(Sweep(s, init, false), Sweep(s, init, true), e);
    }
  }

  /** From any state in step, an incremental sweep leaves the provider exactly as a forced full sweep would, object
      ids included. */
  lemma IncrementalIsForced(s: State, ids: seq<nat>)
    requires AllInStep(s)
    ensures Sweep(s, ids, false).remote == Sweep(s, ids, true).remote
  {
    SweepAgrees(s, ids);
  }

  lemma {:induction false} SweepReaches(s: State, ids: seq<nat>, force: bool, e: nat)
    requires AllInStep(s) && e in ids && e in s.source
    ensures var t := Sweep(s, ids, force);
            && AllInStep(t) && t.source == s.source
            && e in t.mapping && t.mapping[e].ext in t.remote
            && t.remote[t.mapping[e].ext] == Remote(e, s.source[e].version)
  {
    var init, last := ids[..|ids| - 1], ids[|ids| - 1];
    var before := Sweep(s, init, force);
    SweepKeeps(s, init, force);
    SyncOneInStep(before, last, force);
    if e != last {
      SweepReaches(s, init, force, e);
      SyncOneKeepsOthers(before, last, force, e);
    }
  }

  lemma {:induction false} SweepKeeps(s: State, ids: seq<nat>, force: bool)
    requires AllInStep(s)
    ensures AllInStep(Sweep(s, ids, force)) && Sweep(s, ids, force).source == s.source
  {
    if ids != [] {
      SweepKeeps(s, ids[..|ids| - 1], force);
      SyncOneInStep(Sweep(s, ids[..|ids| - 1], force), ids[|ids| - 1], force);
    }
  }

  lemma SyncOneKeepsOthers(s: State, e: nat, force: bool, f: nat)
    requires AllInStep(s) && f != e && MappedLive(s, f)
    ensures var t := SyncOne(s, e, force);
            MappedLive(t, f) && t.mapping[f] == s.mapping[f] && t.remote[t.mapping[f].ext] == s.remote[s.mapping[f].ext]
  {
  }

  /** Either sweep leaves every listed entity current at the provider. */
  lemma SweepIsCurrent(s: State, ids: seq<nat>, force: bool, e: nat)
    requires AllInStep(s) && e in ids && e in s.source
    ensures var t := Sweep(s, ids, force);
            && e in t.mapping && t.mapping[e].ext in t.remote
            && t.remote[t.mapping[e].ext] == Remote(e, s.source[e].version)
  {
    SweepReaches(s, ids, force, e);
  }

  // ---- When the books stay in step ----

  /** Nothing is deleted at the provider, and what a sweep pushes is still the current row; calls may fail. */
  predicate Prompt(w: World, step: Step) {
    match step
    case Sync(e, force, o) => e in w.listed ==> e in w.s.source && w.listed[e] == w.s.source[e]
    case DeleteAtProvider(x) => x !in w.s.remote
    case _ => true
  }

  predicate PromptRun(w: World, steps: seq<Step>)
    decreases |steps|
  {
    steps == [] || (Prompt(w, steps[0]) && PromptRun(Next(w, steps[0]), steps[1..]))
  }

  /** Stamps never lie in the future, so an edit is newer than all of them. */
  ghost predicate Timely(s: State) {
    forall e :: e in s.mapping ==> s.mapping[e].stampedAt <= s.clock
  }

  lemma EditInStep(w: World, step: Step)
    requires AllInStep(w.s) && Timely(w.s) && step.Edit?
    ensures AllInStep(Next(w, step).s) && Timely(Next(w, step).s)
  {
    var t := Next(w, step).s;
    forall f ensures InStep(t, f) {
      assert InStep(w.s, f);
    }
  }

  lemma EnsureInStep(s: State, e: nat, o: Outcome)
    requires AllInStep(s) && Timely(s) && e in s.source
    ensures AllInStep(Ensured(s, e, s.source[e].version, o)) && Timely(Ensured(s, e, s.source[e].version, o))
  {
    if Lookup(s, e, o.read).None? {
      PushInStep(s, e, s.source[e].version, o);
    }
  }

  lemma PushTimely(s: State, e: nat, version: int, o: Outcome)
    requires Timely(s)
    ensures Timely(Synced(s, e, version, o))
  {
  }

  lemma StepInStep(w: World, step: Step)
    requires AllInStep(w.s) && Timely(w.s) && Prompt(w, step)
    ensures AllInStep(Next(w, step).s) && Timely(Next(w, step).s)
  {
    match step
    case Edit(_, _) => EditInStep(w, step);
    case List(_) =>
    case Sync(e, _, o) =>
      if e in w.listed {
        PushInStep(w.s, e, w.listed[e].version, o);
        PushTimely(w.s, e, w.listed[e].version, o);
      }
    case EnsureRef(e, o) => if e in w.s.source { EnsureInStep(w.s, e, o); }
    case DeleteAtProvider(x) => assert w.s.remote - {x} == w.s.remote;
  }

  lemma {:induction false} RunInStep(w: World, steps: seq<Step>)
    requires AllInStep(w.s) && Timely(w.s) && PromptRun(w, steps)
    ensures AllInStep(Run(w, steps).s)
    decreases |steps|
  {
    if steps != [] {
      StepInStep(w, steps[0]);
      RunInStep(Next(w, steps[0]), steps[1..]);
    }
  }

  /** After any run of edits and syncs, with any calls failing, in which nothing vanishes at the provider and no
      listed row is edited before it is pushed, the incremental sweep and the forced one leave the provider in the
      same state. */
  lemma IncrementalIsForcedAfter(steps: seq<Step>, ids: seq<nat>)
    requires PromptRun(START, steps)
    ensures var s := Run(START, steps).s; Sweep(s, ids, false).remote == Sweep(s, ids, true).remote
  {
    RunInStep(START, steps);
    IncrementalIsForced(Run(START, steps).s, ids);
  }

  /** A push keeps the entity in step if and only if the listed version is still the current one. */
  lemma PushKeepsInStepIff(s: State, e: nat, listed: Source)
    requires AllInStep(s) && Timely(s) && e in s.source
    requires s.source[e].updatedAt.Some? && s.source[e].updatedAt.value <= s.clock
    ensures InStep(Synced(s, e, listed.version, FINE), e) <==> listed.version == s.source[e].version
  {
  }

  /** The edit in between is lost: every later incremental sweep skips the entity, and the provider keeps the old
      version, until the entity is edited again or a forced sweep runs. */
  lemma LostEdit(s: State, e: nat, listed: Source, ids: seq<nat>)
    requires AllInStep(s) && Timely(s) && e in s.source && listed.version != s.source[e].version
    requires s.source[e].updatedAt.Some? && s.source[e].updatedAt.value <= s.clock
    ensures var pushed := Synced(s, e, listed.version, FINE);
            && SyncOne(pushed, e, false) == pushed
            && pushed.remote[pushed.mapping[e].ext].version == listed.version
            && SyncOne(pushed, e, true).remote[pushed.mapping[e].ext].version == s.source[e].version
  {
  }

  // ---- Invoices and what they refer to ----

  /** syncInvoiceToConnection: the customer must have a reference, the product need not, then the invoice is pushed. */
  function InvoiceSynced(s: State, invoice: Push, customer: Push, product: Option<Push>): State {
    var s1 := Ensured(s, customer.e, customer.version, customer.o);
    var s2 := if product.Some? then Ensured(s1, product.value.e, product.value.version, product.value.o) else s1;
    if !HasRef(s, customer.e, customer.o) then s1
    else Synced(s2, invoice.e, invoice.version, invoice.o)
  }

  /** One entity to push, and how its calls go. */
  datatype Push = Push(e: nat, version: int, o: Outcome)

  /** An entity that had an object keeps it, as it was. */
  ghost predicate Kept(s: State, t: State, e: nat) {
    MappedLive(s, e) ==>
      e in t.mapping && t.mapping[e] == s.mapping[e] && t.mapping[e].ext in t.remote
      && t.remote[t.mapping[e].ext] == s.remote[s.mapping[e].ext]
  }

  lemma SyncedKeepsOthers(s: State, e: nat, version: int, o: Outcome, f: nat)
    requires Wired(s) && f != e
    ensures Kept(s, Synced(s, e, version, o), f)
  {
  }

  /** Pushing an invoice never duplicates its customer or its product: with every call succeeding, each entity has
      at most one object, and a customer or product that had one keeps it as it was. */
  lemma InvoicePushCreatesOnce(s: State, invoice: Push, customer: Push, product: Option<Push>, e: nat)
    requires Wired(s) && Accounted(s, multiset{}, e)
    requires invoice.o == FINE && customer.o == FINE && (product.Some? ==> product.value.o == FINE)
    requires invoice.e != customer.e && (product.Some? ==> product.value.e !in {invoice.e, customer.e})
    ensures var t := InvoiceSynced(s, invoice, customer, product);
            Wired(t) && Live(t, e) <= 1 && (e != invoice.e ==> Kept(s, t, e))
  {
    var s1 := Ensured(s, customer.e, customer.version, customer.o);
    EnsuredLive(s, customer, e);
    var s2 := if product.Some? then Ensured(s1, product.value.e, product.value.version, product.value.o) else s1;
    if product.Some? {
      EnsuredLive(s1, product.value, e);
    }
    PushedLive(s2, invoice, e);
    if e != invoice.e {
      SyncedKeepsOthers(s2, invoice.e, invoice.version, invoice.o, e);
    }
  }

  predicate Apart(invoice: Push, customer: Push, product: Option<Push>) {
    invoice.e != customer.e && (product.Some? ==> product.value.e !in {invoice.e, customer.e})
  }

  /** The entity's mapping and its objects are as they were. */
  ghost predicate Untouched(s: State, t: State, e: nat) {
    && (e in t.mapping <==> e in s.mapping) && (e in s.mapping ==> t.mapping[e] == s.mapping[e])
    && LiveSet(t, e) == LiveSet(s, e) && forall x :: x in LiveSet(s, e) ==> t.remote[x] == s.remote[x]
  }

  lemma EnsuredLeaves(s: State, e: nat, version: int, o: Outcome, f: nat)
    requires Wired(s) && f != e
    ensures var t := Ensured(s, e, version, o); Wired(t) && Untouched(s, t, f)
  {
    if Lookup(s, e, o.read).None? && !o.create.NotCarried? {
      CreatedByLive(s, e, version, o, f);
      LiveSetGrows(s, CreatedBy(s, e, version, o), s.nextExt, Remote(e, version), f);
    }
  }

  /** A push that succeeds leaves the pushed version in an object of the entity, and when the mapping could be
      written, in the mapped one. */
  lemma SuccessPushes(s: State, e: nat, version: int, o: Outcome)
    requires Wired(s) && Succeeds(s, e, o)
    ensures var t := Synced(s, e, version, o);
            && (exists x :: x in t.remote && t.remote[x] == Remote(e, version))
            && (o.write ==> e in t.mapping && t.mapping[e].ext in t.remote
                            && t.remote[t.mapping[e].ext] == Remote(e, version))
  {
    var t := Synced(s, e, version, o);
    var x := if Lookup(s, e, o.read).Some? && Lookup(s, e, o.read).value in s.remote
             then Lookup(s, e, o.read).value else s.nextExt;
    assert x in t.remote && t.remote[x] == Remote(e, version);
  }

  /** Whether an invoice's sync succeeds, by how its calls go: the customer has a reference, stored or just created,
      and the invoice's own last call is answered.  The product does not matter. */
  predicate InvoicePushed(s: State, invoice: Push, customer: Push) {
    && ((customer.o.read && customer.e in s.mapping) || customer.o.create == Answered)
    && if invoice.o.read && invoice.e in s.mapping
       then invoice.o.update == Answered && (s.mapping[invoice.e].ext in s.remote || invoice.o.create == Answered)
       else invoice.o.create == Answered
  }

  lemma InvoicePushedIs(s: State, invoice: Push, customer: Push, product: Option<Push>)
    requires Wired(s) && Apart(invoice, customer, product)
    ensures var s1 := Ensured(s, customer.e, customer.version, customer.o);
            var s2 := if product.Some?
                      then Ensured(s1, product.value.e, product.value.version, product.value.o) else s1;
            && Wired(s2) && Untouched(s, s2, invoice.e)
            && (InvoicePushed(s, invoice, customer)
                <==> HasRef(s, customer.e, customer.o) && Succeeds(s2, invoice.e, invoice.o))
  {
    EnsuredLeaves(s, customer.e, customer.version, customer.o, invoice.e);
    var s1 := Ensured(s, customer.e, customer.version, customer.o);
    if product.Some? {
      EnsuredLeaves(s1, product.value.e, product.value.version, product.value.o, invoice.e);
    }
    var s2 := if product.Some? then Ensured(s1, product.value.e, product.value.version, product.value.o) else s1;
    if invoice.e in s.mapping {
      SameLiveness(s, s2, invoice.e);
    }
  }

  lemma SameLiveness(s: State, t: State, e: nat)
    requires Wired(s) && Wired(t) && Untouched(s, t, e) && e in s.mapping
    ensures s.mapping[e].ext in s.remote <==> t.mapping[e].ext in t.remote
  {
    var x := s.mapping[e].ext;
    assert x in s.remote ==> x in LiveSet(s, e);
    assert x in t.remote ==> x in LiveSet(t, e);
  }

  /** With every call succeeding, the invoice ends up mapped to a live object that holds the pushed version: exactly
      one. */
  lemma InvoiceArrives(s: State, invoice: Push, customer: Push, product: Option<Push>)
    requires Wired(s) && Accounted(s, multiset{}, invoice.e) && Apart(invoice, customer, product)
    requires invoice.o == FINE && customer.o == FINE && (product.Some? ==> product.value.o == FINE)
    ensures var t := InvoiceSynced(s, invoice, customer, product);
            && invoice.e in t.mapping && t.mapping[invoice.e].ext in t.remote
            && t.remote[t.mapping[invoice.e].ext] == Remote(invoice.e, invoice.version)
            && Live(t, invoice.e) == 1
  {
    var s1 := Ensured(s, customer.e, customer.version, customer.o);
    var s2 := if product.Some? then Ensured(s1, product.value.e, product.value.version, product.value.o) else s1;
    InvoicePushedIs(s, invoice, customer, product);
    FineSucceeds(s2, invoice.e);
    SuccessPushes(s2, invoice.e, invoice.version, FINE);
    InvoicePushCreatesOnce(s, invoice, customer, product, invoice.e);
    var t := InvoiceSynced(s, invoice, customer, product);
    assert t.mapping[invoice.e].ext in LiveSet(t, invoice.e);
  }

  lemma FineSucceeds(s: State, e: nat)
    ensures Succeeds(s, e, FINE)
  {
  }

  /** Without a customer reference, nothing of the invoice changes, neither its mapping nor its objects. */
  lemma NoReferenceNoPush(s: State, invoice: Push, customer: Push, product: Option<Push>)
    requires Wired(s) && Apart(invoice, customer, product)
    requires !(customer.o.read && customer.e in s.mapping) && customer.o.create != Answered
    ensures Untouched(s, InvoiceSynced(s, invoice, customer, product), invoice.e)
  {
    EnsuredLeaves(s, customer.e, customer.version, customer.o, invoice.e);
  }

  lemma PushedLive(s: State, p: Push, e: nat)
    requires Wired(s) && Accounted(s, multiset{}, e) && p.o == FINE
    ensures var t := Synced(s, p.e, p.version, p.o); Wired(t) && Live(t, e) <= 1
  {
    var none: multiset<nat> := multiset{};
    SyncedLive(s, p.e, p.version, p.o, none, e);
    assert none[p.e := none[p.e] + 0] == none;
  }

  lemma EnsuredLive(s: State, p: Push, e: nat)
    requires Wired(s) && Accounted(s, multiset{}, e) && p.o == FINE
    ensures var t := Ensured(s, p.e, p.version, p.o); Wired(t) && Accounted(t, multiset{}, e) && Kept(s, t, e)
  {
    CreatedByLive(s, p.e, p.version, p.o, e);
  }

  // ---- The service ----

  class AccountingStore {
    var s: State

    /** syncEntity, with the provider call made again when the mapped object is gone. */
    method SyncEntity(e: nat, version: int, o: Outcome) returns (ext: Option<nat>)
      modifies this
      ensures s == Synced(old(s), e, version, o)
      ensures ext.Some? <==> Succeeds(old(s), e, o)
      ensures ext.Some? ==> ext.value in s.remote && s.remote[ext.value] == Remote(e, version)
    {
      var mapped := Lookup(s, e, o.read);
      if mapped.Some? {
        if o.update.NotCarried? {
          return None;
        }
        if mapped.value in s.remote {
          s := s.(remote := s.remote[mapped.value := Remote(e, version)]);
          if o.update.Unanswered? {
            return None;
          }
          UpsertMapping(e, mapped.value, o.write);
          return mapped;
        }
        if o.update.Unanswered? {
          return None;
        }
        if o.clear {
          s := s.(mapping := s.mapping - {e});
        }
      }
      ext := CreateEntity(e, version, o);
    }

    /** The adapter in create mode, and the mapping of its answer. */
    method CreateEntity(e: nat, version: int, o: Outcome) returns (ext: Option<nat>)
      modifies this
      ensures s == CreatedBy(old(s), e, version, o)
      ensures ext.Some? <==> o.create.Answered?
      ensures ext.Some? ==> ext.value in s.remote && s.remote[ext.value] == Remote(e, version)
    {
      if o.create.NotCarried? {
        return None;
      }
      var created := s.nextExt;
      s := s.(remote := s.remote[created := Remote(e, version)], nextExt := created + 1);
      if o.create.Unanswered? {
        return None;
      }
      UpsertMapping(e, created, o.write);
      ext := Some(created);
    }

    /** ensureEntityRef: the stored reference, or a newly created one. */
    method EnsureEntityRef(e: nat, version: int, o: Outcome) returns (ext: Option<nat>)
      modifies this
      ensures s == Ensured(old(s), e, version, o)
      ensures ext.Some? <==> HasRef(old(s), e, o)
    {
      ext := Lookup(s, e, o.read);
      if ext.None? {
        ext := CreateEntity(e, version, o);
      }
    }

    /** syncInvoiceToConnection: without a customer reference nothing is pushed; a missing product is not fatal. */
    method SyncInvoice(invoice: Push, customer: Push, product: Option<Push>) returns (ok: bool)
      modifies this
      ensures s == InvoiceSynced(old(s), invoice, customer, product)
      ensures Wired(old(s)) && Apart(invoice, customer, product) ==>
                (ok <==> InvoicePushed(old(s), invoice, customer))
      ensures ok ==> exists x :: x in s.remote && s.remote[x] == Remote(invoice.e, invoice.version)
    {
      if Wired(s) && Apart(invoice, customer, product) {
        InvoicePushedIs(s, invoice, customer, product);
      }
      var customerExt := EnsureEntityRef(customer.e, customer.version, customer.o);
      if customerExt.None? {
        return false;
      }
      if product.Some? {
        var _ := EnsureEntityRef(product.value.e, product.value.version, product.value.o);
      }
      var ext := SyncEntity(invoice.e, invoice.version, invoice.o);
      ok := ext.Some?;
    }

    method UpsertMapping(e: nat, ext: nat, write: bool)
      modifies this
      ensures s == Stamped(old(s), e, ext, write)
    {
      if write {
        s := s.(mapping := s.mapping[e := Mapping(ext, s.clock + 1)], clock := s.clock + 1);
      }
    }

    /** One entity of a sweep, the error of its push being dropped. */
    method SyncListed(e: nat, force: bool, o: Outcome) returns (skipped: bool)
      requires e in s.source
      modifies this
      ensures s == SyncOneWith(old(s), e, force, o) && s.source == old(s).source
      ensures skipped ==> !force && s == old(s)
    {
      if !force && Unchanged(s, e, s.source[e], o.read) {
        return true;
      }
      var _ := SyncEntity(e, s.source[e].version, o);
      skipped := false;
    }

    /** The inner loop over one page; `base` is the state the sweep started from. */
    method SyncPage(ids: seq<nat>, outs: seq<Outcome>, offset: nat, end: nat, force: bool, ghost base: State)
      returns (synced: nat, skipped: nat)
      requires offset <= end <= |ids| && SweptTo(base, s, ids, outs, offset, force)
      requires forall e :: e in ids ==> e in s.source
      modifies this
      ensures SweptTo(base, s, ids, outs, end, force)
      ensures synced + skipped == end - offset && (force ==> skipped == 0)
    {
      synced, skipped := 0, 0;
      for i := offset to end
        invariant SweptTo(base, s, ids, outs, i, force)
        invariant synced + skipped == i - offset && (force ==> skipped == 0)
      {
        SweepNext(base, ids, outs, i, force);
        var same := SyncListed(ids[i], force, outs[i]);
        if same {
          skipped := skipped + 1;
        } else {
          synced := synced + 1;
        }
      }
    }

    /** The customer leg of syncForTenant: pages of at most `limit`, until a page comes back short or cannot be
        listed; `listable` says how many can.  An entity that fails does not stop the sweep and counts as synced. */
    method SyncPages(ids: seq<nat>, outs: seq<Outcome>, limit: nat, listable: nat, force: bool)
      returns (synced: nat, skipped: nat)
      requires limit > 0 && |outs| == |ids| && forall e :: e in ids ==> e in s.source
      modifies this
      ensures synced + skipped == Reach(|ids|, limit, listable) && (force ==> skipped == 0)
      ensures SweptTo(old(s), s, ids, outs, synced + skipped, force)
      ensures AllFine(outs) && synced + skipped == |ids| ==> s == Sweep(old(s), ids, force)
    {
      synced, skipped := 0, 0;
      var offset, page := 0, 0;
      ghost var base := s;
      while page < listable
        invariant page <= listable && offset == Reach(|ids|, limit, page)
        invariant SweptTo(base, s, ids, outs, offset, force)
        invariant synced + skipped == offset && (force ==> skipped == 0)
      {
        ReachNext(|ids|, limit, page);
        var end := if offset + limit <= |ids| then offset + limit else |ids|;
        var pushed, same := SyncPage(ids, outs, offset, end, force, base);
        synced, skipped := synced + pushed, skipped + same;
        var size := end - offset;
        offset, page := end, page + 1;
        if size < limit {
          break;
        }
      }
      ReachEnd(|ids|, limit, page, listable);
      SweptFine(base, s, ids, outs, offset, force);
    }
  }

  /** The state after the first `n` entities of a sweep. */
  ghost predicate SweptTo(base: State, s: State, ids: seq<nat>, outs: seq<Outcome>, n: nat, force: bool) {
    n <= |ids| == |outs| && s.source == base.source && s == SweepWith(base, ids[..n], outs[..n], force)
  }

  /** When every call succeeds and every page is listed, that is the sweep. */
  lemma SweptFine(base: State, s: State, ids: seq<nat>, outs: seq<Outcome>, n: nat, force: bool)
    requires SweptTo(base, s, ids, outs, n, force)
    ensures AllFine(outs) && n == |ids| ==> s == Sweep(base, ids, force)
  {
    if AllFine(outs) && n == |ids| {
      assert ids[..n] == ids && outs[..n] == outs;
      SweepWithFine(base, ids, outs, force);
    }
  }

  /** How far `pages` pages reach. */
  function Reach(total: nat, limit: nat, pages: nat): (n: nat)
    ensures n <= total
  {
    if pages == 0 then 0
    else if Reach(total, limit, pages - 1) + limit <= total then Reach(total, limit, pages - 1) + limit else total
  }

  lemma ReachNext(total: nat, limit: nat, pages: nat)
    ensures Reach(total, limit, pages + 1)
         == if Reach(total, limit, pages) + limit <= total then Reach(total, limit, pages) + limit else total
  {
  }

  /** A page that came back short was the last. */
  lemma {:induction false} ReachEnd(total: nat, limit: nat, pages: nat, more: nat)
    requires pages <= more && (pages == more || Reach(total, limit, pages) == total)
    ensures Reach(total, limit, more) == Reach(total, limit, pages)
    decreases more - pages
  {
    if pages < more {
      ReachNext(total, limit, pages);
      ReachEnd(total, limit, pages + 1, more);
    }
  }
}
