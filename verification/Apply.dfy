/**
 * The four phases as they run, and what one apply leaves behind (apply and verifyPhase of
 * internal/opnsense/apply.go).
 */
module Apply {
  import opened Rows
  import opened Table
  import opened KeyPlan
  import opened Engine
  import opened Fold
  import opened Converge
  import opened Progress
  import opened Retries
  import opened CallLog
  import opened PhaseLog
  import opened FirewallApi
  import opened WriteClient
  import opened TableSnapshot
  import opened WebhookProvider
  import opened Converging

  // Verification reads.

  function LostOf(t: Table, writes: seq<WriteRecord>): set<RowKey> {
    set i | 0 <= i < |writes| && NotShown(t, writes[i].op, writes[i].uuid) :: writes[i].key
  }

  /** One error per lost write, in the order of the writes. */
  function LostErrors(t: Table, writes: seq<WriteRecord>): seq<ApplyError> {
    if writes == [] then []
    else
      var w := writes[|writes| - 1];
      LostErrors(t, writes[..|writes| - 1]) + if NotShown(t, w.op, w.uuid) then [Lost(w)] else []
  }

  lemma {:induction false} LostErrorsMembers(t: Table, writes: seq<WriteRecord>, w: WriteRecord)
    ensures Lost(w) in LostErrors(t, writes) <==> w in writes && NotShown(t, w.op, w.uuid)
  {
    if writes != [] {
      var front, last := writes[..|writes| - 1], writes[|writes| - 1];
      LostErrorsMembers(t, front, w);
      assert writes == front + [last];
    }
  }

  lemma {:induction false} RecordsMembers(seg: seq<Event>, w: WriteRecord)
    ensures w in Records(seg) <==> exists e | e in seg :: e.acked && w == WriteRecord(e.key, e.op, e.id)
  {
    if seg != [] {
      var front, last := seg[..|seg| - 1], seg[|seg| - 1];
      RecordsMembers(front, w);
      assert seg == front + [last];
      assert last in seg;
    }
  }

  /** The keys of the lost records are the keys of the lost calls. */
  lemma LostIsLost(t: Table, events: seq<Event>)
    ensures LostOf(t, Records(events)) == LostKeys(t, PhaseRec(events, true))
  {
    var ws := Records(events);
    forall k | k in LostOf(t, ws) ensures k in LostKeys(t, PhaseRec(events, true)) {
      var i :| 0 <= i < |ws| && NotShown(t, ws[i].op, ws[i].uuid) && ws[i].key == k;
      RecordsMembers(events, ws[i]);
      var e :| e in events && e.acked && ws[i] == WriteRecord(e.key, e.op, e.id);
      assert LostEvent(t, e);
    }
    forall k | k in LostKeys(t, PhaseRec(events, true)) ensures k in LostOf(t, ws) {
      var e :| e in events && LostEvent(t, e) && e.key == k;
      RecordsMembers(events, WriteRecord(e.key, e.op, e.id));
      var i :| 0 <= i < |ws| && ws[i] == WriteRecord(e.key, e.op, e.id);
    }
  }

  /** byUUID: the rows of a listing by identity are the table itself. */
  method ByUuid(listing: seq<Row>, ghost t: Table) returns (byUuid: map<Uuid, Row>)
    requires Listing(listing, t)
    ensures byUuid == t
  {
    byUuid := map[];
    for i := 0 to |listing|
      invariant forall u :: u in byUuid <==> HasUuid(listing[..i], u)
      invariant forall u | u in byUuid :: u in t && byUuid[u] == t[u]
    {
      HasNext(listing, i);
      byUuid := byUuid[listing[i].uuid := listing[i]];
    }
    assert listing[..|listing|] == listing;
    forall u ensures u in byUuid <==> u in t {
      if j :| 0 <= j < |listing| && listing[j].uuid == u { assert listing[j].uuid in t; }
    }
  }

  lemma HasNext(rows: seq<Row>, i: nat)
    requires i < |rows|
    ensures forall u :: HasUuid(rows[..i + 1], u) <==> HasUuid(rows[..i], u) || rows[i].uuid == u
  {
    var next := rows[..i + 1];
    forall u ensures HasUuid(next, u) <==> HasUuid(rows[..i], u) || rows[i].uuid == u {
      if j :| 0 <= j < i && rows[..i][j].uuid == u { assert next[j].uuid == u; }
      if rows[i].uuid == u { assert next[i].uuid == u; }
      if j :| 0 <= j < |next| && next[j].uuid == u { assert j == i || rows[..i][j].uuid == u; }
    }
  }

  /** The check loop of verifyPhase: every lost write is recorded against its key. */
  method CheckWrites(run: ApplyRun, t: Table, writes: seq<WriteRecord>) returns (lost: nat)
    modifies run`errs, run`failed
    ensures run.failed == old(run.failed) + LostOf(t, writes)
    ensures lost == 0 <==> LostOf(t, writes) == {}
    ensures |run.errs| == old(|run.errs|) + lost && run.errs == old(run.errs) + LostErrors(t, writes)
  {
    hide NotShown;
    lost := 0;
    for i := 0 to |writes|
      invariant run.failed == old(run.failed) + LostOf(t, writes[..i])
      invariant lost == 0 <==> LostOf(t, writes[..i]) == {}
      invariant |run.errs| == old(|run.errs|) + lost && run.errs == old(run.errs) + LostErrors(t, writes[..i])
    {
      LostNext(t, writes, i);
      assert writes[..i + 1][..i] == writes[..i];
      if NotShown(t, writes[i].op, writes[i].uuid) {
        lost := lost + 1;
        run.MarkLost(writes[i]);
      }
    }
    assert writes[..|writes|] == writes;
  }

  lemma LostNext(t: Table, writes: seq<WriteRecord>, i: nat)
    requires i < |writes|
    ensures LostOf(t, writes[..i + 1]) == LostOf(t, writes[..i]) + if NotShown(t, writes[i].op, writes[i].uuid)
      then {writes[i].key} else {}
  {
    var next := writes[..i + 1];
    assert next[i] == writes[i];
    forall k ensures k in LostOf(t, next) <==>
      k in LostOf(t, writes[..i]) || (NotShown(t, writes[i].op, writes[i].uuid) && k == writes[i].key)
    {
      var front := writes[..i];
      if j :| 0 <= j < i && NotShown(t, front[j].op, front[j].uuid) && front[j].key == k {
        assert next[j] == front[j];
      }
      if j :| 0 <= j < |next| && NotShown(t, next[j].op, next[j].uuid) && next[j].key == k {
        assert j == i || next[j] == front[j];
      }
    }
  }

  /**
   * verifyPhase: re-reads the table after a phase that wrote and marks the keys of lost
   * writes. A read that fails is a missed check, not an error.
   */
  method VerifyPhase(run: ApplyRun, ghost events: seq<Event>) returns (lost: nat, ghost readOk: bool)
    requires run.Valid() && run.writes == Records(events)
    modifies run`writes, run`errs, run`failed, run.p.client.fw`served, run.p.client.fw`faults, run.p.client.fw`struck
    ensures run.Valid() && run.Pair() == old(run.Pair()) && run.writes == []
    ensures events == [] ==>
      run.p.client.fw.struck == old(run.p.client.fw.struck) && run.p.client.fw.faults == old(run.p.client.fw.faults)
    ensures run.p.client.fw.struck >= old(run.p.client.fw.struck)
    ensures !readOk ==> run.p.client.fw.struck > old(run.p.client.fw.struck)
    ensures
      var keys := LostKeys(run.Pair().table, PhaseRec(events, readOk));
      run.failed == old(run.failed) + keys && (lost == 0 <==> keys == {})
    ensures |run.errs| == old(|run.errs|) + lost
    ensures run.errs == old(run.errs) + if readOk then LostErrors(run.Pair().table, Records(events)) else []
  {
    hide WorldInv, JobOk, TableSnapshot.Snapshot.Filing, TableSnapshot.Snapshot.Stored, TableSnapshot.Snapshot.Index,
         NotShown, LostEvent, TableOf, FirewallApi.Firewall.Valid, Listing;
    var writes := run.writes;
    run.writes := [];
    ghost var t := run.Pair().table;
    lost, readOk := 0, true;
    LostIsLost(t, events);
    if writes == [] {
      return;
    }
    var listing, _ := run.p.client.ReadTable(run.p.pageSize, run.p.readAttempts);
    if listing.None? {
      readOk := false;
      return;
    }
    var byUuid := ByUuid(listing.value, t);
    lost := CheckWrites(run, byUuid, writes);
  }

  /** A skipped phase: the targets it would have written count as failed. */
  method SkipPhase(run: ApplyRun, i: nat)
    modifies run`failed
    ensures run.failed == old(run.failed) + set k | k in run.job.sets && PhaseSelects(i, k) &&
      run.job.sets[k].targets != {}
  {
    var todo := Selected(run.job, i);
    while todo != {}
      invariant todo <= Selected(run.job, i)
      invariant run.failed == old(run.failed) + set k | k in Selected(run.job, i) - todo &&
        run.job.sets[k].targets != {}
    {
      var k :| k in todo;
      run.MarkFailed(k);
      todo := todo - {k};
    }
  }

  /** Some error names the key. */
  predicate NamesKey(errs: seq<ApplyError>, k: RowKey) {
    exists i | 0 <= i < |errs| :: match errs[i]
      case WriteFailed(key) => key == k
      case AliasBlocked(key, _) => key == k
      case _ => false
  }

  predicate NamesAll(errs: seq<ApplyError>, keys: set<RowKey>) {
    forall k | k in keys :: NamesKey(errs, k)
  }

  lemma NamesNone(errs: seq<ApplyError>)
    ensures NamesAll(errs, {})
  {
  }

  lemma NamesMore(errs: seq<ApplyError>, more: seq<ApplyError>, keys: set<RowKey>, k: RowKey)
    requires errs <= more && NamesAll(errs, keys)
    ensures NamesAll(more, keys) && (NamesKey(more, k) ==> NamesAll(more, keys + {k}))
  {
    forall x | x in keys ensures NamesKey(more, x) {
      var i :| 0 <= i < |errs| && match errs[i]
        case WriteFailed(key) => key == x
        case AliasBlocked(key, _) => key == x
        case _ => false;
      assert more[i] == errs[i];
    }
  }

  lemma ErrorNamesKey(errs: seq<ApplyError>, err: ApplyError, k: RowKey, seg: seq<Event>)
    requires Explains(err, k, seg)
    ensures NamesKey(errs + [err], k)
  {
    assert (errs + [err])[|errs|] == err;
  }

  /** One worker's turn: the key's calls follow its plan, and the key is marked if they err. */
  method ConvergeOne(run: ApplyRun, i: nat, k: RowKey, ghost eng: Engine, ghost m: Mark, ghost events: seq<Event>,
      ghost todo: set<RowKey>, ghost erred: set<RowKey>)
    returns (ghost seg: seq<Event>, ghost erred': set<RowKey>)
    requires run.Valid() && run.Stretch(m, events) && m.pair == eng.world && k in todo
    requires PhaseSoFar(run.job, eng, i, events, todo, erred) && run.failed == eng.failed + erred
    requires run.phaseFailed == 0 <==> erred == {}
    modifies run, run.p`pending, run.p.client.fw, run.snap, run.snap.owned, run.snap.arrays
    ensures run.Valid() && run.Stretch(m, events + seg)
    ensures run.snap.Grown()
    ensures PhaseSoFar(run.job, eng, i, events + seg, todo - {k}, erred') && run.failed == eng.failed + erred'
    ensures run.phaseFailed == 0 <==> erred' == {}
    ensures |run.errs| - run.phaseFailed == old(|run.errs| - run.phaseFailed)
    ensures old(run.errs) <= run.errs && erred <= erred' <= erred + {k} &&
      (k in erred' && k !in erred ==> NamesKey(run.errs, k))
  {
    hide WorldInv, JobOk, Steps, Heard, Records, PlanAt, PlanFor, Follows, Errs, PhaseSoFar, RowsAt;
    hide FirewallApi.Firewall.Saved, TableSnapshot.Snapshot.Filing, TableSnapshot.Snapshot.Stored,
         TableSnapshot.Snapshot.Index;
    PlanIsAt(run.job, eng, i, events, todo, erred, k);
    ghost var at := run.Now();
    var err;
    err, seg := run.Converge(k, PhaseMode(i));
    PhaseNext(run.job, eng, i, events, todo, erred, k, seg);
    run.StretchJoin(m, at, events, seg);
    erred' := erred + if Errs(PlanAt(run.job, eng, i, k), seg) then {k} else {};
    if err.Some? {
      ErrorNamesKey(run.errs, err.value, k, seg);
      run.Fail(k, err.value);
    }
  }

  /**
   * The workers of one phase, one key after another in any order. Every selected key's
   * calls follow its plan, and the keys that erred are marked.
   */
  method ConvergeAll(run: ApplyRun, i: nat, ghost eng: Engine) returns (ghost events: seq<Event>)
    requires run.Valid() && run.writes == [] && eng.world == run.Pair() && eng.failed == run.failed &&
      run.phaseFailed == 0
    modifies run, run.p`pending, run.p.client.fw, run.snap, run.snap.owned, run.snap.arrays
    ensures run.Valid() && run.Stretch(old(run.Now()), events) && PhaseRuns(run.job, eng, i, events)
    ensures run.snap.Grown()
    ensures
      var erred := ConvergeErrors(run.job, eng, i, events);
      run.failed == eng.failed + erred && (run.phaseFailed == 0 <==> erred == {}) && NamesAll(run.errs, erred)
    ensures |run.errs| == old(|run.errs|) + run.phaseFailed && old(run.errs) <= run.errs
  {
    hide NamesKey, NamesAll;
    hide WorldInv, JobOk, Steps, Heard, Records, Erred, PlanAt, PhaseRuns, PhaseSoFar, ConvergeErrors;
    hide FirewallApi.Firewall.Saved, TableSnapshot.Snapshot.Filing, TableSnapshot.Snapshot.Stored,
         TableSnapshot.Snapshot.Index;
    ghost var m, erred := run.Now(), {};
    var todo := Selected(run.job, i);
    events := [];
    run.StretchStart(m);
    PhaseStarts(run.job, eng, i);
    NamesNone(run.errs);
    while todo != {}
      invariant run.Valid() && run.Stretch(m, events)
      invariant run.snap.Grown()
      invariant PhaseSoFar(run.job, eng, i, events, todo, erred) && run.failed == eng.failed + erred
      invariant run.phaseFailed == 0 <==> erred == {}
      invariant |run.errs| == old(|run.errs|) + run.phaseFailed && old(run.errs) <= run.errs &&
        NamesAll(run.errs, erred)
      decreases |todo|
    {
      var k :| k in todo;
      ghost var seg, errs, before := [], run.errs, erred;
      seg, erred := ConvergeOne(run, i, k, eng, m, events, todo, erred);
      NamesMore(errs, run.errs, before, k);
      assert erred == before || erred == before + {k};
      todo := todo - {k};
      events := events + seg;
    }
    PhaseDone(run.job, eng, i, events, erred, run.p.client.fw.struck == m.struck);
  }

  /** The errors name every key that erred in the phase, and every write the re-read did not show. */
  ghost predicate Named(errs: seq<ApplyError>, job: Job, eng: Engine, i: nat, rec: PhaseRec)
    requires |eng.bad| == i
  {
    && (!Gated(eng, i) ==> NamesAll(errs, ConvergeErrors(job, eng, i, rec.events)))
    && (rec.readOk ==> forall e | e in rec.events && LostEvent(PhaseEnd(job, eng, i, rec).world.table, e) ::
          Lost(WriteRecord(e.key, e.op, e.id)) in errs)
  }

  lemma LostIsNamed(t: Table, events: seq<Event>, e: Event)
    requires e in events && LostEvent(t, e)
    ensures Lost(WriteRecord(e.key, e.op, e.id)) in LostErrors(t, Records(events))
  {
    RecordsMembers(events, WriteRecord(e.key, e.op, e.id));
    LostErrorsMembers(t, Records(events), WriteRecord(e.key, e.op, e.id));
  }

  lemma PhaseIsNamed(before: seq<ApplyError>, errs: seq<ApplyError>, job: Job, eng: Engine, i: nat, rec: PhaseRec)
    requires |eng.bad| == i && !Gated(eng, i) && NamesAll(before, ConvergeErrors(job, eng, i, rec.events))
    requires errs == before + if rec.readOk
      then LostErrors(PhaseEnd(job, eng, i, rec).world.table, Records(rec.events)) else []
    ensures Named(errs, job, eng, i, rec) && before <= errs
  {
    hide ConvergeErrors, PhaseEnd, LostErrors, Records, NamesKey, NamesAll, LostEvent;
    NamesMore(before, errs, ConvergeErrors(job, eng, i, rec.events), RowKey("", ""));
    var t := PhaseEnd(job, eng, i, rec).world.table;
    if rec.readOk {
      forall e | e in rec.events && LostEvent(t, e) ensures Lost(WriteRecord(e.key, e.op, e.id)) in errs {
        LostIsNamed(t, rec.events, e);
      }
    }
  }

  lemma SkippedIsNamed(errs: seq<ApplyError>, job: Job, eng: Engine, i: nat)
    requires |eng.bad| == i && Gated(eng, i)
    ensures Named(errs, job, eng, i, PhaseRec([], true))
  {
  }

  /** The same of every phase of a run. */
  ghost predicate AllNamed(errs: seq<ApplyError>, job: Job, start: Engine, recs: seq<PhaseRec>)
    requires start.bad == []
  {
    forall i | 0 <= i < |recs| :: Named(errs, job, EngineAt(job, start, recs, i), i, recs[i])
  }

  lemma NamedMore(errs: seq<ApplyError>, more: seq<ApplyError>, job: Job, eng: Engine, i: nat, rec: PhaseRec)
    requires |eng.bad| == i && errs <= more && Named(errs, job, eng, i, rec)
    ensures Named(more, job, eng, i, rec)
  {
    hide ConvergeErrors, PhaseEnd, NamesKey, NamesAll, LostEvent, Gated;
    if !Gated(eng, i) {
      NamesMore(errs, more, ConvergeErrors(job, eng, i, rec.events), RowKey("", ""));
    }
  }

  lemma AllNamedMore(errs: seq<ApplyError>, more: seq<ApplyError>, job: Job, start: Engine, recs: seq<PhaseRec>)
    requires start.bad == [] && errs <= more && AllNamed(errs, job, start, recs)
    ensures AllNamed(more, job, start, recs)
  {
    hide Named, EngineAt;
    forall i | 0 <= i < |recs| ensures Named(more, job, EngineAt(job, start, recs, i), i, recs[i]) {
      NamedMore(errs, more, job, EngineAt(job, start, recs, i), i, recs[i]);
    }
  }

  lemma {:induction false} EngineOfPrefix(job: Job, start: Engine, recs: seq<PhaseRec>, rec: PhaseRec, i: nat)
    requires start.bad == [] && i <= |recs|
    ensures EngineAt(job, start, recs + [rec], i) == EngineAt(job, start, recs, i)
  {
    hide PhaseEnd;
    if i > 0 { EngineOfPrefix(job, start, recs, rec, i - 1); }
  }

  lemma AllNamedNext(errs: seq<ApplyError>, more: seq<ApplyError>, job: Job, start: Engine, recs: seq<PhaseRec>,
      rec: PhaseRec)
    requires start.bad == [] && errs <= more && AllNamed(errs, job, start, recs)
    requires Named(more, job, EngineAt(job, start, recs, |recs|), |recs|, rec)
    ensures AllNamed(more, job, start, recs + [rec])
  {
    hide Named, EngineAt;
    AllNamedMore(errs, more, job, start, recs);
    forall i | 0 <= i < |recs + [rec]|
      ensures Named(more, job, EngineAt(job, start, recs + [rec], i), i, (recs + [rec])[i])
    {
      EngineOfPrefix(job, start, recs, rec, i);
    }
  }

  /** One phase that is not gated: converge every selected key, then check what was acknowledged. */
  method RunPhase(run: ApplyRun, i: nat, ghost eng: Engine) returns (failures: nat, ghost rec: PhaseRec)
    requires run.Valid() && run.writes == [] && |eng.bad| == i && !Gated(eng, i)
    requires eng.world == run.Pair() && eng.failed == run.failed
    modifies run, run.p`pending, run.p.client.fw, run.snap, run.snap.owned, run.snap.arrays
    ensures run.Valid() && run.writes == []
    ensures run.snap.Grown()
    ensures PhaseOk(run.job, eng, i, rec)
    ensures
      var end := PhaseEnd(run.job, eng, i, rec);
      end == Engine(run.Pair(), run.failed, eng.bad + [failures > 0 || (i == TXT_ADD && run.job.rejected)])
    ensures PhaseClean(run.job, eng, i, rec) <==> failures == 0
    ensures |run.errs| == old(|run.errs|) + failures && old(run.errs) <= run.errs &&
      Named(run.errs, run.job, eng, i, rec)
    ensures run.p.client.fw.struck >= old(run.p.client.fw.struck)
    ensures run.p.client.fw.struck == old(run.p.client.fw.struck) ==> Quiet(eng.world, rec)
    ensures Path(old(run.p.client.fw.history), run.p.client.fw.history, eng.world, rec.events)
  {
    hide WorldInv, JobOk, Steps, Records, PlanAt, PhaseRuns, ConvergeErrors, LostKeys, PhaseEnd, PhaseOk, PhaseClean,
         Gated, Answered;
    hide FirewallApi.Firewall.Saved, FirewallApi.Firewall.Valid, TableSnapshot.Snapshot.Filing,
         TableSnapshot.Snapshot.Stored, TableSnapshot.Snapshot.Index, NamesAll, NamesKey, Named, LostErrors;
    run.phaseFailed := 0;
    ghost var events;
    events := ConvergeAll(run, i, eng);
    ghost var erred, before := ConvergeErrors(run.job, eng, i, events), run.errs;
    var lost;
    ghost var readOk;
    lost, readOk := VerifyPhase(run, events);
    failures := run.phaseFailed + lost;
    rec := PhaseRec(events, readOk);
    PhaseEnded(run.job, eng, i, rec, run.failed, erred, LostKeys(run.Pair().table, rec));
    PhaseIsNamed(before, run.errs, run.job, eng, i, rec);
  }

  /** The protective phase a phase waits for counted a failure. */
  predicate SkipsPhase(failures: seq<nat>, i: nat)
    requires |failures| == PHASES
  {
    (i == DATA_ADD && failures[TXT_ADD] > 0) || (i == TXT_REMOVE && failures[DATA_REMOVE] > 0)
  }

  /** The failure counts say what the engine's flags say. */
  ghost predicate CountsAre(failures: seq<nat>, eng: Engine, i: nat, rejected: nat) {
    && |failures| == PHASES && |eng.bad| == i <= PHASES
    && (forall j | 0 <= j < i :: failures[j] > 0 <==> eng.bad[j])
    && (forall j | i <= j < PHASES :: failures[j] == if j == TXT_ADD then rejected else 0)
  }

  lemma CountsStart(start: Engine, rejected: nat)
    requires start.bad == []
    ensures CountsAre([rejected, 0, 0, 0], start, 0, rejected)
  {
  }

  /** A phase is skipped exactly when the engine's gate is shut, and then an error was recorded before. */
  lemma SkipsIfGated(failures: seq<nat>, eng: Engine, i: nat, rejected: nat)
    requires CountsAre(failures, eng, i, rejected) && i < PHASES
    ensures SkipsPhase(failures, i) <==> Gated(eng, i)
    ensures Gated(eng, i) ==> exists j | 0 <= j < i :: eng.bad[j]
  {
  }

  lemma NoPath(history: seq<Table>, w: World)
    ensures Path(history, history, w, [])
  {
  }

  lemma GatedAfter(eng: Engine, i: nat)
    requires |eng.bad| == i && Gated(eng, i)
    ensures i != TXT_ADD
  {
  }

  lemma CountsNext(failures: seq<nat>, eng: Engine, i: nat, rejected: nat, failed: nat, next: Engine, flagged: bool)
    requires CountsAre(failures, eng, i, rejected) && i < PHASES && next.bad == eng.bad + [flagged]
    requires flagged == (failed > 0 || (i == TXT_ADD && rejected > 0))
    ensures CountsAre(failures[i := failures[i] + failed], next, i + 1, rejected)
  {
  }

  /** The phase loop of apply. */
  method RunPhases(run: ApplyRun, rejected: nat, ghost start: Engine) returns (ghost recs: seq<PhaseRec>)
    requires run.Valid() && run.writes == [] && run.failed == {} && StartOk(start) && start.world == run.Pair()
    requires run.job.rejected == (rejected > 0) && (rejected > 0 ==> run.errs != [])
    modifies run, run.p`pending, run.p.client.fw, run.snap, run.snap.owned, run.snap.arrays
    ensures run.Valid() && RunOk(run.job, start, recs) && EngineAt(run.job, start, recs, PHASES).world == run.Pair()
    ensures run.errs == [] <==> old(run.errs) == [] && RunClean(run.job, start, recs)
    ensures run.p.client.fw.struck >= old(run.p.client.fw.struck)
    ensures run.p.client.fw.struck == old(run.p.client.fw.struck) ==> FaultFree(run.job, start, recs)
    ensures Witnessed(run.job, start, recs, old(run.p.client.fw.history), run.p.client.fw.history)
    ensures old(run.errs) <= run.errs && AllNamed(run.errs, run.job, start, recs)
  {
    hide Named, AllNamed;
    hide WorldInv, JobOk, Steps, Records, PhaseEnd, PhaseOk, PhaseClean, EngineAt, QuietTo, Quiet, RunsTo, CleanUpTo,
         CountsAre, Gated, SkipsPhase, RunClean, RunOk, FaultFree, Path, SeenIn;
    hide FirewallApi.Firewall.Saved, FirewallApi.Firewall.Valid, TableSnapshot.Snapshot.Filing,
         TableSnapshot.Snapshot.Stored, TableSnapshot.Snapshot.Index;
    var failures := [rejected, 0, 0, 0];
    recs := [];
    ghost var eng := start;
    NoPhases(run.job, start);
    NothingToName(run.errs, run.job, start);
    CountsStart(start, rejected);
    for i := 0 to PHASES
      invariant run.Valid() && run.writes == []
      invariant run.snap.Grown()
      invariant |recs| == i && |failures| == PHASES && RunsTo(run.job, start, recs) &&
        eng == EngineAt(run.job, start, recs, i)
      invariant eng.world == run.Pair() && eng.failed == run.failed && CountsAre(failures, eng, i, rejected)
      invariant run.errs == [] <==> old(run.errs) == [] && CleanUpTo(run.job, start, recs, i)
      invariant forall j | 0 <= j < i && eng.bad[j] :: run.errs != []
      invariant run.p.client.fw.struck >= old(run.p.client.fw.struck)
      invariant run.p.client.fw.struck == old(run.p.client.fw.struck) ==> QuietTo(run.job, start, recs)
      invariant Witnessed(run.job, start, recs, old(run.p.client.fw.history), run.p.client.fw.history)
      invariant old(run.errs) <= run.errs && AllNamed(run.errs, run.job, start, recs)
    {
      ghost var rec, mid, errs := PhaseRec([], true), run.p.client.fw.history, run.errs;
      var failed := 0;
      SkipsIfGated(failures, eng, i, rejected);
      if SkipsPhase(failures, i) {
        PhaseSkipped(run.job, eng, i);
        SkippedIsNamed(run.errs, run.job, eng, i);
        SkipPhase(run, i);
        GatedAfter(eng, i);
        NoPath(mid, eng.world);
      } else {
        failed, rec := RunPhase(run, i, eng);
      }
      PhaseAppended(run.job, start, recs, rec);
      WitnessAppended(run.job, start, recs, rec, old(run.p.client.fw.history), mid, run.p.client.fw.history);
      AllNamedNext(errs, run.errs, run.job, start, recs, rec);
      ghost var next := PhaseEnd(run.job, eng, i, rec);
      CountsNext(failures, eng, i, rejected, failed, next, next.bad[i]);
      failures, eng := failures[i := failures[i] + failed], next;
      recs := recs + [rec];
    }
    AllPhases(run.job, start, recs, run.p.client.fw.struck == old(run.p.client.fw.struck));
  }

  lemma NothingToName(errs: seq<ApplyError>, job: Job, start: Engine)
    requires start.bad == []
    ensures AllNamed(errs, job, start, [])
  {
  }

  lemma NoPhases(job: Job, start: Engine)
    requires start.bad == []
    ensures RunsTo(job, start, []) && CleanUpTo(job, start, [], 0) && QuietTo(job, start, []) &&
      EngineAt(job, start, [], 0) == start
  {
  }

  lemma AllPhases(job: Job, start: Engine, recs: seq<PhaseRec>, quiet: bool)
    requires JobOk(job) && StartOk(start) && |recs| == PHASES && RunsTo(job, start, recs) &&
      (quiet ==> QuietTo(job, start, recs))
    ensures RunOk(job, start, recs) && (quiet ==> FaultFree(job, start, recs))
    ensures RunClean(job, start, recs) <==> !job.rejected && CleanUpTo(job, start, recs, PHASES)
  {
    hide EngineAt;
    if quiet { QuietIsFaultFree(job, start, recs); }
  }

  /** What an apply answers: the first read failed, or the errors it collected; none at all is nil. */
  datatype Outcome = SnapshotFailed | Finished(errs: seq<ApplyError>)

  function FoldErrors(errs: seq<FoldError>): seq<ApplyError> {
    seq(|errs|, i requires 0 <= i < |errs| => FoldFailed(errs[i]))
  }

  /** A fresh run: nothing failed, and the index lists exactly the saved rows. */
  method Begin(p: Provider, job: Job, errs: seq<ApplyError>, listing: seq<Row>)
      returns (run: ApplyRun, ghost start: Engine)
    requires p.Valid() && JobOk(job) && job.cfg == p.cfg && Listing(listing, p.client.fw.Saved())
    ensures fresh(run) && fresh(run.snap) && fresh(run.snap.owned) && fresh(run.snap.arrays) && run.p == p &&
      run.job == job && run.errs == errs
    ensures run.Valid() && run.writes == [] && run.failed == {} && !run.wrote && run.covered == p.Covered()
    ensures StartOk(start) && start.bad == [] && start.world == run.Pair()
  {
    hide Listing, TableOf, StartOk, WorldInv, JobOk, Agree, IndexOf, Publish, FirewallApi.Firewall.Valid,
         TableSnapshot.Snapshot.Filing, TableSnapshot.Snapshot.Stored, TableSnapshot.Snapshot.Index;
    var snap := new Snapshot(listing);
    run := new ApplyRun(p, snap, job, errs);
    SavedIds(p.client.fw);
    FreshSnapshotAgrees(listing, p.client.fw.Saved(), p.client.fw.next);
    start := Engine(run.Pair(), {}, []);
    StartIsOk(start);
  }

  lemma StartIsOk(start: Engine)
    requires start.bad == [] && start.failed == {} && WorldInv(start.world) && forall k :: Agree(start.world, k)
    ensures StartOk(start)
  {
  }

  lemma SavedIds(fw: Firewall)
    requires fw.Valid()
    ensures forall u | u in fw.Saved() :: fw.Saved()[u].uuid == u && u < fw.next
  {
  }

  /** The trailing reload of apply: needed after any write attempt, and while the flag is up. */
  method Finish(run: ApplyRun) returns (reloaded: bool)
    requires run.Sane()
    modifies run`errs, run.p`pending, run.p.client.fw`served, run.p.client.fw`faults, run.p.client.fw`struck
    ensures run.p.Valid() && run.p.client.fw.struck >= old(run.p.client.fw.struck)
    ensures run.p.client.fw.Saved() == old(run.p.client.fw.Saved())
    ensures run.errs == if reloaded then old(run.errs) else old(run.errs) + [ReloadFailed]
    ensures !reloaded ==> run.p.client.fw.struck > old(run.p.client.fw.struck)
    ensures run.covered ==> run.p.Covered() && (reloaded ==> !run.p.pending && run.p.client.fw.Published())
    ensures !run.wrote && !old(run.p.pending) ==>
      reloaded && !run.p.pending && run.p.client.fw.served == old(run.p.client.fw.served)
    ensures (run.wrote || old(run.p.pending)) && reloaded ==> !run.p.pending && run.p.client.fw.Published()
  {
    hide TableOf, TableSnapshot.Snapshot.Filing, TableSnapshot.Snapshot.Stored;
    reloaded := true;
    if run.wrote || run.p.pending {
      reloaded := run.p.Reconfigure(false);
      if !reloaded {
        run.errs := run.errs + [ReloadFailed];
      }
    }
  }

  lemma FailedRead(job: Job, t: Table, struck: nat)
    requires struck > 0
    ensures AttemptOk(job, t, t, ReadFailed(struck)) && !ReturnsNil(job, ReadFailed(struck))
  {
  }

  /** The run of an apply, summed up. */
  lemma RanAsAttempt(job: Job, start: Engine, recs: seq<PhaseRec>, reloaded: bool, struck: nat, t: Table, t2: Table,
      foldErrs: seq<FoldError>, errs: seq<ApplyError>)
    requires RunOk(job, start, recs) && start.world.table == t && EngineAt(job, start, recs, PHASES).world.table == t2
    requires struck == 0 ==> FaultFree(job, start, recs) && reloaded
    requires errs == [] <==> FoldErrors(foldErrs) == [] && RunClean(job, start, recs)
    ensures AttemptOk(job, t, t2, Ran(start, recs, reloaded, struck))
    ensures errs == [] && reloaded <==> foldErrs == [] && ReturnsNil(job, Ran(start, recs, reloaded, struck))
  {
    hide EngineAt, RunClean, FaultFree;
  }

  /**
   * ApplyChanges: one apply is one run of the engine over the folded plan, whatever the
   * firewall answers. It returns nil exactly when the plan folded cleanly, no phase
   * recorded an error and the trailing reload succeeded.
   */
  method ApplyChanges(p: Provider, changes: Changes) returns (out: Outcome, ghost a: Attempt)
    requires p.Valid() && JobOk(JobOf(p.cfg, changes))
    modifies p`pending, p.client.fw
    ensures p.Valid() && (old(p.Covered()) ==> p.Covered())
    ensures AttemptOk(JobOf(p.cfg, changes), old(p.client.fw.Saved()), p.client.fw.Saved(), a)
    ensures a.struck == p.client.fw.struck - old(p.client.fw.struck)
    ensures a.Ran? ==> Witnessed(JobOf(p.cfg, changes), a.start, a.recs, old(p.client.fw.history), p.client.fw.history)
    ensures out.SnapshotFailed? <==> a.ReadFailed?
    ensures a.Ran? ==>
      && AllNamed(out.errs, JobOf(p.cfg, changes), a.start, a.recs)
      && FoldErrors(FoldOf(PlanDefinitions(p.cfg, changes)).errs) <= out.errs
      && (!a.reloaded ==> ReloadFailed in out.errs)
    ensures out == Finished([]) <==>
      FoldOf(PlanDefinitions(p.cfg, changes)).errs == [] && ReturnsNil(JobOf(p.cfg, changes), a)
    ensures out == Finished([]) && old(p.Covered()) ==> !p.pending && p.client.fw.Published()
    ensures out == Finished([]) && Verified(a.recs) ==> Converged(JobOf(p.cfg, changes), p.client.fw.Saved())
    ensures
      var job := JobOf(p.cfg, changes);
      && FoldOf(PlanDefinitions(p.cfg, changes)).errs == [] && PlanAcceptable(job) &&
        AliasFree(job, old(p.client.fw.Saved()))
      && out != Finished([])
      ==> p.client.fw.struck > old(p.client.fw.struck)
  {
    hide WorldInv, JobOk, Listing, RunOk, RunClean, EngineAt, FoldOf, StartOk, JobOf, FaultFree, PlanDefinitions,
         SeenIn, AttemptOk, ReturnsNil, Converged, PlanAcceptable, AliasFree;
    hide TableOf, TableSnapshot.Snapshot.Filing, TableSnapshot.Snapshot.Stored, TableSnapshot.Snapshot.Index, Publish,
         FirewallApi.Firewall.Valid, Witnessed, AllNamed;
    ghost var t, struck0 := p.client.fw.Saved(), p.client.fw.struck;
    var listing, _ := p.client.ReadTable(p.pageSize, p.readAttempts);
    if listing.None? {
      a := ReadFailed(p.client.fw.struck - struck0);
      FailedRead(JobOf(p.cfg, changes), t, a.struck);
      return SnapshotFailed, a;
    }
    var sets, errs, rejected := FoldChanges(p.cfg, changes);
    FoldedIsJob(p.cfg, changes, rejected);
    var run;
    ghost var start, recs;
    run, start := Begin(p, Job(p.cfg, sets, rejected > 0), FoldErrors(errs), listing.value);
    recs := RunPhases(run, rejected, start);
    ghost var before := run.errs;
    var reloaded := Finish(run);
    a := Ran(start, recs, reloaded, p.client.fw.struck - struck0);
    RanAsAttempt(run.job, start, recs, reloaded, a.struck, t, p.client.fw.Saved(), errs, before);
    out := Finished(run.errs);
    AllNamedMore(before, run.errs, run.job, start, recs);
    AttemptMeans(run.job, t, p.client.fw.Saved(), a);
  }

  // Rounds.

  lemma MoreAttempts(job: Job, tables: seq<Table>, attempts: seq<Attempt>, t: Table, a: Attempt)
    requires Successive(job, tables, attempts) && AttemptOk(job, tables[|attempts|], t, a)
    ensures Successive(job, tables + [t], attempts + [a])
    ensures TotalStruck(attempts + [a]) == TotalStruck(attempts) + a.struck
  {
    hide AttemptOk;
    assert (attempts + [a])[..|attempts|] == attempts;
  }

  /** What n + 1 successive applies of a plan the firewall accepts come to when it has n faults to give. */
  lemma OneRoundConverges(cfg: Config, changes: Changes, tables: seq<Table>, attempts: seq<Attempt>, n: nat)
    requires Successive(JobOf(cfg, changes), tables, attempts) && |attempts| == n + 1 && TotalStruck(attempts) <= n
    requires FoldOf(PlanDefinitions(cfg, changes)).errs == []
    requires PlanAcceptable(JobOf(cfg, changes)) && AliasFree(JobOf(cfg, changes), tables[0])
    ensures exists j | 0 <= j < |attempts| ::
      ReturnsNil(JobOf(cfg, changes), attempts[j]) && Converged(JobOf(cfg, changes), tables[j + 1])
  {
    hide FoldOf, PlanDefinitions, PlanAcceptable, AliasFree, Successive, ReturnsNil, Converged, TotalStruck;
    FoldsCleanly(PlanDefinitions(cfg, changes));
    OneOfNPlusOneConverges(JobOf(cfg, changes), tables, attempts, n);
  }

  /**
   * The plan applied round after round, n + 1 times. If the firewall has at most n faults
   * to come and accepts what the plan writes, some round answers nil and leaves the saved
   * table converged, whatever the rounds before it lost or left half-done.
   */
  method ApplyRepeatedly(p: Provider, changes: Changes, n: nat)
    returns (outs: seq<Outcome>, ghost tables: seq<Table>, ghost attempts: seq<Attempt>)
    requires p.Valid() && JobOk(JobOf(p.cfg, changes))
    modifies p`pending, p.client.fw
    ensures p.Valid() && (old(p.Covered()) ==> p.Covered())
    ensures |outs| == |attempts| == n + 1 && Successive(JobOf(p.cfg, changes), tables, attempts)
    ensures tables[0] == old(p.client.fw.Saved()) && tables[n + 1] == p.client.fw.Saved()
    ensures TotalStruck(attempts) == p.client.fw.struck - old(p.client.fw.struck) <= Harmful(old(p.client.fw.faults))
    ensures
      var job, clean := JobOf(p.cfg, changes), FoldOf(PlanDefinitions(p.cfg, changes)).errs == [];
      && (forall j | 0 <= j <= n :: outs[j] == Finished([]) <==> clean && ReturnsNil(job, attempts[j]))
      && (clean && PlanAcceptable(job) && AliasFree(job, old(p.client.fw.Saved()))
          && Harmful(old(p.client.fw.faults)) <= n
          ==> exists j | 0 <= j <= n :: outs[j] == Finished([]) && Converged(job, tables[j + 1]))
  {
    hide JobOk, FoldOf, JobOf, PlanDefinitions, AttemptOk, ReturnsNil, Converged, PlanAcceptable, AliasFree,
         Witnessed, TableOf, Publish, Successive, TotalStruck;
    ghost var job, clean := JobOf(p.cfg, changes), FoldOf(PlanDefinitions(p.cfg, changes)).errs == [];
    outs, tables, attempts := [], [p.client.fw.Saved()], [];
    NoAttempts(job, p.client.fw.Saved());
    for i := 0 to n + 1
      invariant p.Valid() && (old(p.Covered()) ==> p.Covered())
      invariant |outs| == |attempts| == i && Successive(job, tables, attempts) && |tables| == i + 1
      invariant tables[0] == old(p.client.fw.Saved()) && tables[i] == p.client.fw.Saved()
      invariant TotalStruck(attempts) == p.client.fw.struck - old(p.client.fw.struck)
      invariant forall j | 0 <= j < i :: outs[j] == Finished([]) <==> clean && ReturnsNil(job, attempts[j])
    {
      var out;
      ghost var a;
      out, a := ApplyChanges(p, changes);
      MoreAttempts(job, tables, attempts, p.client.fw.Saved(), a);
      outs, tables, attempts := outs + [out], tables + [p.client.fw.Saved()], attempts + [a];
    }
    if clean && PlanAcceptable(job) && AliasFree(job, tables[0]) && TotalStruck(attempts) <= n {
      OneRoundConverges(p.cfg, changes, tables, attempts, n);
    }
  }

  lemma NoAttempts(job: Job, t: Table)
    ensures Successive(job, [t], []) && TotalStruck([]) == 0
  {
  }
}
