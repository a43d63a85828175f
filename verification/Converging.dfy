/** One apply as it runs: the converge loops over one key (internal/opnsense/apply.go). */
module Converging {
  import opened Names
  import opened Order
  import opened Rows
  import opened Table
  import opened KeyPlan
  import opened Engine
  import opened CallLog
  import opened PlanSteps
  import opened FirewallApi
  import opened WriteClient
  import opened TableSnapshot
  import opened WebhookProvider

  /** The mutable state of one apply. */
  class ApplyRun {
    const p: Provider
    const snap: Snapshot
    const job: Job
    /** Whether what was saved and not served was marked pending when the apply began. */
    ghost const covered: bool
    /** The keys whose desired targets were not all written, or never attempted. */
    var failed: set<RowKey>
    var errs: seq<ApplyError>
    var wrote: bool
    /** Converge failures within the phase now running. */
    var phaseFailed: nat
    /** Writes the firewall acknowledged in the phase now running. */
    var writes: seq<WriteRecord>

    /** The saved table, the index and the next identity, as the engine's theorems see them. */
    ghost function Pair(): World
      requires snap.Valid()
      reads this, p.client.fw, snap, snap.owned, snap.arrays
    {
      World(p.client.fw.Saved(), snap.Index(), p.client.fw.next)
    }

    /** The parts are well-formed, the flag is up once the apply has written, and what was covered stays covered. */
    ghost predicate Sane()
      reads this, p, p.client.fw, snap, snap.arrays
    {
      p.Valid() && snap.Valid() && (wrote ==> p.pending) && (covered ==> p.Covered())
    }

    ghost predicate Valid()
      reads this, p, p.client.fw, snap, snap.owned, snap.arrays
    {
      Sane() && WorldInv(Pair()) && JobOk(job) && job.cfg == p.cfg
    }

    constructor (p: Provider, snap: Snapshot, job: Job, errs: seq<ApplyError>)
      ensures this.p == p && this.snap == snap && this.job == job && this.errs == errs
      ensures failed == {} && !wrote && phaseFailed == 0 && writes == [] && covered == p.Covered()
    {
      this.covered := p.Covered();
      this.p, this.snap, this.job, this.errs := p, snap, job, errs;
      failed, wrote, phaseFailed, writes := {}, false, 0, [];
    }

    /** fail: a converge error of a key. */
    method Fail(k: RowKey, err: ApplyError)
      modifies this`errs, this`phaseFailed, this`failed
      ensures errs == old(errs) + [err] && phaseFailed == old(phaseFailed) + 1 && failed == old(failed) + {k}
    {
      errs, phaseFailed, failed := errs + [err], phaseFailed + 1, failed + {k};
    }

    /** markFailed: the phase that would have written the key's targets was skipped. */
    method MarkFailed(k: RowKey)
      requires k in job.sets
      modifies this`failed
      ensures failed == if job.sets[k].targets == {} then old(failed) else old(failed) + {k}
    {
      if job.sets[k].targets != {} {
        failed := failed + {k};
      }
    }

    /** lost: a write the re-read did not show. */
    method MarkLost(w: WriteRecord)
      modifies this`errs, this`failed
      ensures errs == old(errs) + [Lost(w)] && failed == old(failed) + {w.key}
    {
      errs, failed := errs + [Lost(w)], failed + {w.key};
    }

    /** markWrite: the pending flag goes up before the first write of the apply. */
    method MarkWrite()
      requires wrote ==> p.pending
      modifies this`wrote, p`pending
      ensures wrote && p.pending
    {
      if !wrote {
        wrote := true;
        p.pending := true;
      }
    }

    method Record(k: RowKey, op: Op, u: Uuid)
      modifies this`writes
      ensures writes == old(writes) + [WriteRecord(k, op, u)]
    {
      writes := writes + [WriteRecord(k, op, u)];
    }

    // One call.

    lemma PairIs(w: World, e: Event)
      requires snap.Valid() && p.client.fw.Saved() == TableStep(w.table, e) && snap.Index() == IndexStep(w.index, e)
      requires p.client.fw.next == if e.op.Add? then e.id + 1 else w.next
      ensures Pair() == Step(w, e)
    {
    }

    lemma SetPairIs(w: World, e: Event, f: Fields)
      requires snap.Valid() && e.op == Set(e.id, f) && p.client.fw.Saved() == TableStep(w.table, e) &&
        p.client.fw.next == w.next
      requires snap.Index() == if e.acked then w.index[e.key := RetargetIn(RowsAt(w.index, e.key), e.id, f)]
        else w.index
      ensures Pair() == Step(w, e)
    {
    }

    method SendSet(k: RowKey, u: Uuid, f: Fields) returns (ok: bool, ghost e: Event)
      requires p.Valid() && (wrote ==> p.pending)
      modifies this`wrote, p`pending, p.client.fw
      ensures p.Valid() && wrote && p.pending && p.client.fw.struck >= old(p.client.fw.struck)
      ensures IsCall(Set(u, f), k, e) && e.acked == ok
      ensures Between(old(p.client.fw.history), p.client.fw.history, old(p.client.fw.Saved()), p.client.fw.Saved())
      ensures p.client.fw.Saved() == TableStep(old(p.client.fw.Saved()), e) && p.client.fw.next == old(p.client.fw.next)
      ensures Refused(old(p.client.fw.Saved()), e.op) ==> !e.acked && !e.applied
      ensures p.client.fw.struck == old(p.client.fw.struck) ==> Fine(old(p.client.fw.Saved()), e)
    {
      MarkWrite();
      ok, e := p.client.SetHostOverride(k, u, f);
    }

    method IndexSet(k: RowKey, row: HostRow, f: Fields)
      requires snap.Valid() && FieldsKey(f) == k && row in snap.RowsFor(k) && Distinct(Views(snap.RowsFor(k)))
      modifies this`writes, row
      ensures snap.Valid() && row.View() == Retargeted(old(row.View()), f)
      ensures snap.Index() == old(snap.Index())[k := RetargetIn(RowsAt(old(snap.Index()), k), row.uuid, f)]
      ensures writes == old(writes) + [WriteRecord(k, Set(row.uuid, f), row.uuid)]
    {
      hide Snapshot.Filing, Snapshot.Stored, Views, RetargetIn, Retargeted, Distinct, FieldsKey;
      snap.Retarget(k, row, f);
      Record(k, Set(row.uuid, f), row.uuid);
    }

    /** setRow: rewrites one indexed row in place. */
    method SetRow(k: RowKey, row: HostRow, f: Fields) returns (ok: bool, ghost e: Event)
      requires Sane() && row in snap.RowsFor(k) && Distinct(Views(snap.RowsFor(k))) && WrittenFor(f, k)
      modifies this`wrote, this`writes, p`pending, p.client.fw, row
      ensures Sane() && wrote && p.client.fw.struck >= old(p.client.fw.struck)
      ensures IsCall(Set(row.uuid, f), k, e) && e.acked == ok
      ensures Pair() == Step(old(Pair()), e) && Answered(old(Pair()), e)
      ensures Between(old(p.client.fw.history), p.client.fw.history, old(Pair()).table, Pair().table)
      ensures p.client.fw.struck == old(p.client.fw.struck) ==> Fine(old(Pair()).table, e)
      ensures writes == old(writes) + if ok then [WriteRecord(k, e.op, e.id)] else []
      ensures row.View() == if ok then Retargeted(old(row.View()), f) else old(row.View())
    {
      hide TableStep, IndexStep, Step, Refused, Fine, Views, Snapshot.Filing, Snapshot.Stored, Firewall.Saved,
           Firewall.Valid;
      ghost var w := Pair();
      ok, e := SendSet(k, row.uuid, f);
      if ok {
        IndexSet(k, row, f);
      }
      SetPairIs(w, e, f);
    }

    method SendAdd(k: RowKey, f: Fields) returns (id: Option<Uuid>, ghost e: Event)
      requires p.Valid() && (wrote ==> p.pending)
      modifies this`wrote, p`pending, p.client.fw
      ensures p.Valid() && wrote && p.pending && p.client.fw.struck >= old(p.client.fw.struck)
      ensures IsCall(Add(f), k, e) && id == if e.acked then Some(e.id) else None
      ensures Between(old(p.client.fw.history), p.client.fw.history, old(p.client.fw.Saved()), p.client.fw.Saved())
      ensures p.client.fw.Saved() == TableStep(old(p.client.fw.Saved()), e)
      ensures old(p.client.fw.next) <= e.id && p.client.fw.next == e.id + 1
      ensures Refused(old(p.client.fw.Saved()), e.op) ==> !e.acked && !e.applied
      ensures p.client.fw.struck == old(p.client.fw.struck) ==> Fine(old(p.client.fw.Saved()), e)
    {
      MarkWrite();
      ghost var tries;
      id, e, tries := p.client.AddHostOverride(k, f);
    }

    method IndexAdd(k: RowKey, id: Uuid, f: Fields)
      requires snap.Valid() && WrittenFor(f, k)
      modifies this`writes, snap, snap.arrays
      ensures snap.Valid() && snap.Grown()
      ensures snap.Index() == old(snap.Index())[k := RowsAt(old(snap.Index()), k) + [IndexRow(id, f)]]
      ensures writes == old(writes) + [WriteRecord(k, Add(f), id)]
    {
      hide Snapshot.Filing, Snapshot.Stored;
      snap.Add(IndexRow(id, f));
      Record(k, Add(f), id);
    }

    /** createRow: creates one row and indexes it. */
    method CreateRow(k: RowKey, f: Fields) returns (ok: bool, ghost e: Event)
      requires Sane() && WrittenFor(f, k)
      modifies this`wrote, this`writes, p`pending, p.client.fw, snap, snap.arrays
      ensures Sane() && wrote && p.client.fw.struck >= old(p.client.fw.struck)
      ensures snap.Grown()
      ensures IsCall(Add(f), k, e) && e.acked == ok
      ensures Pair() == Step(old(Pair()), e) && Answered(old(Pair()), e)
      ensures Between(old(p.client.fw.history), p.client.fw.history, old(Pair()).table, Pair().table)
      ensures p.client.fw.struck == old(p.client.fw.struck) ==> Fine(old(Pair()).table, e)
      ensures writes == old(writes) + if ok then [WriteRecord(k, e.op, e.id)] else []
    {
      hide Firewall.Saved, Firewall.Valid, Snapshot.Filing, Snapshot.Stored, Snapshot.Index, Refused, TableStep,
           WorldInv;
      ghost var w := Pair();
      var id;
      id, e := SendAdd(k, f);
      ok := id.Some?;
      if ok {
        IndexAdd(k, id.value, f);
      }
      PairIs(w, e);
    }

    method SendDel(k: RowKey, u: Uuid) returns (ok: bool, ghost e: Event)
      requires p.Valid() && (wrote ==> p.pending)
      modifies this`wrote, p`pending, p.client.fw
      ensures p.Valid() && wrote && p.pending && p.client.fw.struck >= old(p.client.fw.struck)
      ensures IsCall(Del(u), k, e) && e.acked == ok
      ensures Between(old(p.client.fw.history), p.client.fw.history, old(p.client.fw.Saved()), p.client.fw.Saved())
      ensures p.client.fw.Saved() == TableStep(old(p.client.fw.Saved()), e) && p.client.fw.next == old(p.client.fw.next)
      ensures p.client.fw.struck == old(p.client.fw.struck) ==> Fine(old(p.client.fw.Saved()), e)
    {
      MarkWrite();
      var deleted;
      deleted, e := p.client.DelHostOverride(k, u);
      ok := deleted.Some?;
    }

    method IndexDel(k: RowKey, u: Uuid)
      requires snap.Valid()
      modifies this`writes, snap`byKey, snap`entries, snap`arrays, snap.arrays
      ensures snap.Valid() && snap.Grown()
      ensures snap.Index() == old(snap.Index())[k := Without(RowsAt(old(snap.Index()), k), u)]
      ensures writes == old(writes) + [WriteRecord(k, Del(u), u)]
    {
      hide Snapshot.Filing, Snapshot.Stored;
      snap.Remove(k, u);
      Record(k, Del(u), u);
    }

    /** The delete of removeSurplus: a row already gone counts as deleted. */
    method DeleteRow(k: RowKey, u: Uuid) returns (ok: bool, ghost e: Event)
      requires Sane()
      modifies this`wrote, this`writes, p`pending, p.client.fw, snap`byKey, snap`entries, snap`arrays, snap.arrays
      ensures snap.Grown()
      ensures Sane() && wrote && p.client.fw.struck >= old(p.client.fw.struck)
      ensures IsCall(Del(u), k, e) && e.acked == ok
      ensures Pair() == Step(old(Pair()), e) && Answered(old(Pair()), e)
      ensures Between(old(p.client.fw.history), p.client.fw.history, old(Pair()).table, Pair().table)
      ensures p.client.fw.struck == old(p.client.fw.struck) ==> Fine(old(Pair()).table, e)
      ensures writes == old(writes) + if ok then [WriteRecord(k, e.op, e.id)] else []
    {
      hide TableStep, Fine, Snapshot.Filing, Snapshot.Stored, Firewall.Saved, Firewall.Valid;
      ghost var w := Pair();
      ok, e := SendDel(k, u);
      if ok {
        IndexDel(k, u);
      }
      PairIs(w, e);
    }

    // Loops of calls.

    ghost function Now(): Mark
      requires snap.Valid()
      reads this, p.client.fw, snap, snap.owned, snap.arrays
    {
      Mark(Pair(), p.client.fw.struck, writes, p.client.fw.history)
    }

    /** What holds after the calls of seg, counted from a mark. */
    ghost predicate Stretch(m: Mark, seg: seq<Event>)
      reads this, p, p.client.fw, snap, snap.owned, snap.arrays
    {
      && Sane() && Pair() == Steps(m.pair, seg) && WorldInv(Pair()) && writes == m.writes + Records(seg)
      && p.client.fw.struck >= m.struck && Heard(m.pair, seg, p.client.fw.struck == m.struck)
      && Path(m.history, p.client.fw.history, m.pair, seg)
    }

    lemma StretchStart(m: Mark)
      requires Sane() && WorldInv(Pair()) && m == Now()
      ensures Stretch(m, [])
    {
    }

    /** Two stretches, one after the other, are one. */
    lemma StretchJoin(m: Mark, at: Mark, a: seq<Event>, b: seq<Event>)
      requires at.pair == Steps(m.pair, a) && at.writes == m.writes + Records(a)
      requires at.struck >= m.struck && Heard(m.pair, a, at.struck == m.struck) && Stretch(at, b)
      requires Path(m.history, at.history, m.pair, a)
      ensures Stretch(m, a + b)
    {
      hide WorldInv, Heard, Sane, Pair, Path;
      StepsConcat(m.pair, a, b);
      PathConcat(m.history, at.history, p.client.fw.history, m.pair, a, b);
      RecordsConcat(a, b);
      assert m.writes + (Records(a) + Records(b)) == m.writes + Records(a) + Records(b);
      var quiet := p.client.fw.struck == m.struck;
      HeardWeaker(m.pair, a, at.struck == m.struck, quiet);
      HeardWeaker(at.pair, b, p.client.fw.struck == at.struck, quiet);
      HeardConcat(m.pair, a, b, quiet);
    }

    lemma EntryIsDistinct(k: RowKey)
      requires snap.Valid() && WorldInv(Pair())
      ensures Distinct(Views(snap.RowsFor(k)))
    {
      snap.EntryViews(k);
    }

    /** One more set of a stretch of acknowledged calls, into the j-th row of the key's entry. */
    method SetNext(ghost m: Mark, ghost seg: seq<Event>, ghost ops: seq<Op>, k: RowKey, ghost entry: seq<HostRow>,
        ghost j: nat, row: HostRow, f: Fields)
      returns (ok: bool, ghost seg': seq<Event>, ghost ops': seq<Op>)
      requires Stretch(m, seg) && Done(ops, k, seg) && entry == snap.RowsFor(k) && WrittenFor(f, k)
      requires j < |entry| && entry[j] == row
      modifies this`wrote, this`writes, p`pending, p.client.fw, row
      ensures snap.Same()
      ensures Stretch(m, seg') && ops' == ops + [Set(row.uuid, f)]
      ensures if ok then Done(ops', k, seg') else Cut(ops', k, seg')
      ensures Views(entry) == if ok then old(Views(entry))[j := Retargeted(old(Views(entry))[j], f)]
        else old(Views(entry))
    {
      hide WorldInv, Step, Steps, Heard, Path, Between, Records, Fine, Answered, Distinct, Legal, Done, Cut, HasUuid,
           RowsAt, Retargeted, WrittenFor;
      hide Pair, Firewall.Saved, Firewall.Valid, Snapshot.Filing, Snapshot.Stored, Snapshot.Index, Provider.Valid,
           OnceEach;
      EntryIsDistinct(k);
      RowIsIndexed(k, row);
      EntryOnce(k, j);
      ghost var e, quiet, was, mid := *, p.client.fw.struck == m.struck, Views(entry), p.client.fw.history;
      ok, e := SetRow(k, row, f);
      LegalSet(Steps(m.pair, seg), k, row.uuid, f, e);
      Extend(m.pair, seg, e, quiet, p.client.fw.struck == m.struck, m.writes);
      PathStep(m.history, mid, p.client.fw.history, m.pair, seg, e);
      StepDone(ops, k, seg, Set(row.uuid, f), e);
      seg', ops' := seg + [e], ops + [Set(row.uuid, f)];
      ViewsUpdated(entry, was, j);
    }

    /** One more add of a stretch of acknowledged calls. */
    method AddNext(ghost m: Mark, ghost seg: seq<Event>, ghost ops: seq<Op>, k: RowKey, f: Fields)
      returns (ok: bool, ghost seg': seq<Event>, ghost ops': seq<Op>)
      requires Stretch(m, seg) && Done(ops, k, seg) && WrittenFor(f, k)
      modifies this`wrote, this`writes, p`pending, p.client.fw, snap, snap.arrays
      ensures Stretch(m, seg') && ops' == ops + [Add(f)]
      ensures snap.Grown()
      ensures if ok then Done(ops', k, seg') else Cut(ops', k, seg')
    {
      hide WorldInv, Step, Steps, Heard, Path, Between, Records, Fine, Distinct, Legal, Done, Cut, HasUuid, RowsAt,
           WrittenFor;
      hide Pair, Firewall.Saved, Firewall.Valid, Snapshot.Filing, Snapshot.Stored, Snapshot.Index, Provider.Valid,
           OnceEach;
      ghost var e, quiet, mid := *, p.client.fw.struck == m.struck, p.client.fw.history;
      ok, e := CreateRow(k, f);
      LegalAdd(Steps(m.pair, seg), k, f, e);
      Extend(m.pair, seg, e, quiet, p.client.fw.struck == m.struck, m.writes);
      PathStep(m.history, mid, p.client.fw.history, m.pair, seg, e);
      StepDone(ops, k, seg, Add(f), e);
      seg', ops' := seg + [e], ops + [Add(f)];
    }

    /** One more delete of a stretch of acknowledged calls. */
    method DelNext(ghost m: Mark, ghost seg: seq<Event>, ghost ops: seq<Op>, k: RowKey, u: Uuid)
      returns (ok: bool, ghost seg': seq<Event>, ghost ops': seq<Op>)
      requires Stretch(m, seg) && Done(ops, k, seg) && HasUuid(RowsAt(Pair().index, k), u)
      modifies this`wrote, this`writes, p`pending, p.client.fw, snap`byKey, snap`entries, snap`arrays, snap.arrays
      ensures snap.Grown() && snap.Valid()
      ensures Stretch(m, seg') && ops' == ops + [Del(u)]
      ensures if ok then Done(ops', k, seg') else Cut(ops', k, seg')
      ensures forall v | HasUuid(RowsAt(old(Pair()).index, k), v) && v != u :: HasUuid(RowsAt(Pair().index, k), v)
    {
      hide WorldInv, Step, Steps, Heard, Path, Between, Records, Fine, Answered, Distinct, Legal, Done, Cut, HasUuid,
           RowsAt;
      hide Pair, Firewall.Saved, Firewall.Valid, Snapshot.Filing, Snapshot.Stored, Snapshot.Index, Provider.Valid,
           OnceEach;
      ghost var e, quiet, w, mid := *, p.client.fw.struck == m.struck, Pair(), p.client.fw.history;
      ok, e := DeleteRow(k, u);
      LegalDel(w, k, u, e);
      Extend(m.pair, seg, e, quiet, p.client.fw.struck == m.struck, m.writes);
      PathStep(m.history, mid, p.client.fw.history, m.pair, seg, e);
      StepDone(ops, k, seg, Del(u), e);
      seg', ops' := seg + [e], ops + [Del(u)];
    }

    /** The refresh loop of addSet: rows already carrying a desired target are brought into line. */
    method RefreshRows(set_: Desired, existing: seq<HostRow>, byTarget: map<string, HostRow>, targets: seq<string>)
      returns (ok: bool, ghost seg: seq<Event>, ghost ops: seq<Op>)
      requires Sane() && WorldInv(Pair()) && SetOk(set_, set_.key)
      requires existing == snap.RowsFor(set_.key) && Increasing(Less, targets)
      requires LooksUp(byTarget, existing, Views(existing))
      modifies this`wrote, this`writes, p`pending, p.client.fw, existing
      ensures Stretch(old(Now()), seg) && snap.Same()
      ensures ops <= Refreshes(p.cfg, set_, old(Views(existing)), targets)
      ensures if ok then Done(ops, set_.key, seg) && ops == Refreshes(p.cfg, set_, old(Views(existing)), targets)
        else Cut(ops, set_.key, seg)
      ensures ok ==> Refreshed(old(Views(existing)), Views(existing), targets)
    {
      hide WorldInv, Steps, Heard, Records, WrittenFor, SetOk, FieldsFor, ParseTTL, StrictTotal, Stretch, Cut, Less,
           OnceEach, Retargeted, Refreshed;
      hide Pair, Now, Firewall.Saved, Firewall.Valid, Snapshot.Filing, Snapshot.Stored, Snapshot.Index,
           Provider.Valid, Increasing, LastWith;
      ghost var rows0, m := Views(existing), Now();
      var k := set_.key;
      seg, ops := [], [];
      StretchStart(m);
      RefreshedStart(rows0);
      for i := 0 to |targets|
        invariant Stretch(m, seg) && snap.Same()
        invariant ops == Refreshes(p.cfg, set_, rows0, targets[..i]) && Done(ops, k, seg)
        invariant Refreshed(rows0, Views(existing), targets[..i])
      {
        var t := targets[i];
        ghost var j := LastWith(rows0, t);
        RefreshesNext(p.cfg, set_, rows0, targets, i);
        RefreshedMore(rows0, Views(existing), targets[..i], t);
        if t in byTarget {
          var r := byTarget[t];
          var f := FieldsFor(p.cfg, set_, t);
          RefreshedNext(rows0, Views(existing), targets[..i], t, j, f);
          assert r.View() == rows0[j];
          if !(ParseTTL(r.ttl) == set_.ttl && r.description == f.description && r.addPtr == f.addPtr) {
            FieldsAreWritten(p.cfg, set_, t);
            ok, seg, ops := SetNext(m, seg, ops, k, existing, j, r, f);
            if !ok {
              return;
            }
          }
        }
      }
      assert targets[..|targets|] == targets;
      ok := true;
    }

    lemma EntryOnce(k: RowKey, j: nat)
      requires snap.Valid() && j < |snap.RowsFor(k)|
      ensures forall i | 0 <= i < |snap.RowsFor(k)| && i != j :: snap.RowsFor(k)[i] != snap.RowsFor(k)[j]
    {
    }

    lemma RowIsIndexed(k: RowKey, row: HostRow)
      requires snap.Valid() && row in snap.RowsFor(k)
      ensures HasUuid(RowsAt(Pair().index, k), row.uuid)
    {
      snap.EntryViews(k);
      var i :| 0 <= i < |snap.RowsFor(k)| && snap.RowsFor(k)[i] == row;
      assert Views(snap.RowsFor(k))[i].uuid == row.uuid;
    }

    /** byTarget: the last row for each target. */
    method LookUp(existing: seq<HostRow>) returns (byTarget: map<string, HostRow>)
      ensures LooksUp(byTarget, existing, Views(existing))
    {
      ghost var rows := Views(existing);
      byTarget := map[];
      for i := 0 to |existing|
        invariant LooksUp(byTarget, existing[..i], rows[..i])
      {
        LastWithNext(rows, i);
        byTarget := byTarget[TargetOf(existing[i].View()) := existing[i]];
      }
      assert existing[..|existing|] == existing && rows[..|existing|] == rows;
    }

    /** The targets no row carries, in order. */
    method MissingTargets(byTarget: map<string, HostRow>, targets: seq<string>, ghost existing: seq<HostRow>,
        ghost rows: seq<Row>)
      returns (missing: seq<string>)
      requires |rows| == |existing| && LooksUp(byTarget, existing, rows)
      ensures missing == Missing(rows, targets)
    {
      missing := [];
      for i := 0 to |targets|
        invariant missing == Missing(rows, targets[..i])
      {
        assert targets[..i + 1][..i] == targets[..i];
        if targets[i] !in byTarget {
          missing := missing + [targets[i]];
        }
      }
      assert targets[..|targets|] == targets;
    }

    /** The rows the plan no longer names, in order. */
    method SurplusRows(set_: Desired, existing: seq<HostRow>) returns (surplus: seq<HostRow>)
      ensures Views(surplus) == Surplus(set_, Views(existing))
      ensures forall r | r in surplus :: r in existing
    {
      surplus := [];
      for i := 0 to |existing|
        invariant Views(surplus) == Surplus(set_, Views(existing[..i]))
        invariant forall r | r in surplus :: r in existing
      {
        assert existing[..i + 1] == existing[..i] + [existing[i]];
        ViewsAppend(existing[..i], existing[i]);
        SurplusNext(set_, Views(existing[..i]), existing[i].View());
        if TargetOf(existing[i].View()) !in set_.targets {
          ViewsAppend(surplus, existing[i]);
          surplus := surplus + [existing[i]];
        }
      }
      assert existing[..|existing|] == existing;
    }

    /** The reuse loop of addSet: missing targets take over surplus rows. */
    method ReuseRows(ghost m: Mark, ghost seg: seq<Event>, ghost ops: seq<Op>, set_: Desired, surplus: seq<HostRow>,
        missing: seq<string>, n: nat, ghost rows: seq<Row>)
      returns (ok: bool, ghost seg': seq<Event>, ghost ops': seq<Op>)
      requires Stretch(m, seg) && Done(ops, set_.key, seg) && SetOk(set_, set_.key)
      requires n <= |missing| && n <= |surplus| == |rows| && forall i | 0 <= i < n :: surplus[i].uuid == rows[i].uuid
      requires forall r | r in surplus :: r in snap.RowsFor(set_.key)
      modifies this`wrote, this`writes, p`pending, p.client.fw, surplus
      ensures Stretch(m, seg') && snap.Same()
      ensures ops' <= ops + Reuses(p.cfg, set_, rows, missing, n)
      ensures if ok then Done(ops', set_.key, seg') && ops' == ops + Reuses(p.cfg, set_, rows, missing, n)
        else Cut(ops', set_.key, seg')
    {
      hide WorldInv, Steps, Heard, Records, WrittenFor, SetOk, FieldsFor, Stretch, Done, Cut, Views;
      hide Pair, Now, Firewall.Saved, Firewall.Valid, Snapshot.Filing, Snapshot.Stored, Snapshot.Index, Provider.Valid;
      var k := set_.key;
      seg', ops' := seg, ops;
      for i := 0 to n
        invariant snap.Same()
        invariant Stretch(m, seg') && Done(ops', k, seg')
        invariant ops' == ops + Reuses(p.cfg, set_, rows, missing, i)
      {
        FieldsAreWritten(p.cfg, set_, missing[i]);
        ghost var j := PositionOf(snap.RowsFor(k), surplus[i]);
        ReusesNext(p.cfg, set_, rows, missing, n, i, ops);
        ok, seg', ops' := SetNext(m, seg', ops', k, snap.RowsFor(k), j, surplus[i], FieldsFor(p.cfg, set_, missing[i]));
        if !ok {
          return;
        }
      }
      ok := true;
    }

    /** The create loop of addSet. */
    method CreateRows(ghost m: Mark, ghost seg: seq<Event>, ghost ops: seq<Op>, set_: Desired, missing: seq<string>)
      returns (ok: bool, ghost seg': seq<Event>, ghost ops': seq<Op>)
      requires Stretch(m, seg) && Done(ops, set_.key, seg) && SetOk(set_, set_.key)
      modifies this`wrote, this`writes, p`pending, p.client.fw, snap, snap.arrays
      ensures Stretch(m, seg')
      ensures snap.Grown()
      ensures ops' <= ops + Creates(p.cfg, set_, missing)
      ensures if ok then Done(ops', set_.key, seg') && ops' == ops + Creates(p.cfg, set_, missing)
        else Cut(ops', set_.key, seg')
    {
      hide WorldInv, Steps, Heard, Records, WrittenFor, SetOk, FieldsFor, Stretch, Done, Cut;
      hide Pair, Now, Firewall.Saved, Firewall.Valid, Snapshot.Filing, Snapshot.Stored, Snapshot.Index, Provider.Valid;
      seg', ops' := seg, ops;
      for i := 0 to |missing|
        invariant Stretch(m, seg') && Done(ops', set_.key, seg')
        invariant ops' == ops + Creates(p.cfg, set_, missing)[..i]
        invariant snap.Grown()
      {
        FieldsAreWritten(p.cfg, set_, missing[i]);
        CreatesNext(p.cfg, set_, missing, i, ops);
        ok, seg', ops' := AddNext(m, seg', ops', set_.key, FieldsFor(p.cfg, set_, missing[i]));
        if !ok {
          return;
        }
      }
      assert Creates(p.cfg, set_, missing)[..|missing|] == Creates(p.cfg, set_, missing);
      ok := true;
    }

    /** The second half of addSet: surplus rows are reused, and what is still missing is created. */
    method FillMissing(ghost m: Mark, ghost seg: seq<Event>, ghost ops: seq<Op>, set_: Desired, surplus: seq<HostRow>,
        missing: seq<string>, ghost rows: seq<Row>)
      returns (ok: bool, ghost seg': seq<Event>, ghost ops': seq<Op>)
      requires Stretch(m, seg) && Done(ops, set_.key, seg) && SetOk(set_, set_.key)
      requires |surplus| == |rows| && forall i | 0 <= i < |surplus| :: surplus[i].uuid == rows[i].uuid
      requires forall r | r in surplus :: r in snap.RowsFor(set_.key)
      modifies this`wrote, this`writes, p`pending, p.client.fw, snap, snap.arrays, surplus
      ensures Stretch(m, seg') && snap.Grown()
      ensures
        var n := Min(|missing|, |surplus|);
        var all := ops + Reuses(p.cfg, set_, rows, missing, n) + Creates(p.cfg, set_, missing[n..]);
        ops' <= all && if ok then Done(ops', set_.key, seg') && ops' == all else Cut(ops', set_.key, seg')
    {
      hide WorldInv, Steps, Heard, Records, WrittenFor, SetOk, FieldsFor, Stretch, Done, Cut, Views, Reuses, Creates;
      hide Pair, Firewall.Saved, Firewall.Valid, Snapshot.Filing, Snapshot.Stored, Snapshot.Index, Provider.Valid;
      var n := Min(|missing|, |surplus|);
      ok, seg', ops' := ReuseRows(m, seg, ops, set_, surplus, missing, n, rows);
      if ok {
        ok, seg', ops' := CreateRows(m, seg', ops', set_, missing[n..]);
      }
    }

    /**
     * addSet: refreshes, reuses and creates, in that order, up to the first call that is
     * not acknowledged. The calls made are exactly those of the key's add plan.
     */
    method AddSet(set_: Desired) returns (err: Option<ApplyError>, ghost seg: seq<Event>)
      requires Sane() && WorldInv(Pair()) && SetOk(set_, set_.key)
      modifies this`wrote, this`writes, p`pending, p.client.fw, snap, snap.owned, snap.arrays
      ensures Stretch(old(Now()), seg)
      ensures snap.Grown()
      ensures
        var plan := KeyPlan(AddPlan(p.cfg, set_, RowsAt(old(Pair()).index, set_.key)), false);
        Follows(plan, set_.key, seg) && (err.Some? <==> Errs(plan, seg))
      ensures err.Some? ==> Explains(err.value, set_.key, seg)
    {
      hide WorldInv, Steps, Heard, Records, WrittenFor, SetOk, FieldsFor, Stretch, Done, Cut, Views, Refreshes,
           Missing, Reuses, Creates, Increasing, Less;
      hide Firewall.Saved, Firewall.Valid, Snapshot.Filing, Snapshot.Stored, Snapshot.Index, Provider.Valid, Follows,
           Errs, LooksUp, Surplus, TargetOf, LastWith, AddPlan, Explains, OnceEach, Answered, EnabledChildren, JobOk,
             CoreOf;
      var k := set_.key;
      ghost var m := Now();
      snap.EntryViews(k);
      var existing := snap.CopyRows(k);
      ghost var rows := Views(existing);
      EntryOwned(k);
      ViewFacts(existing);
      var byTarget := LookUp(existing);
      var targets := SortedTargets(set_);
      TargetsIncrease(set_);
      var ok;
      ghost var ops;
      AddPlanParts(p.cfg, set_, rows, ReuseCount(set_, rows));
      ok, seg, ops := RefreshRows(set_, existing, byTarget, targets);
      if ok {
        ghost var now := Views(existing);
        var missing := MissingTargets(byTarget, targets, existing, rows);
        var surplus := SurplusRows(set_, existing);
        SurplusStays(set_, rows, now, surplus);
        ok, seg, ops := FillMissing(m, seg, ops, set_, surplus, missing, Surplus(set_, rows));
      }
      if !ok {
        AddCut(p.cfg, set_, rows, seg, ops);
        CutExplains(ops, k, seg);
        return Some(WriteFailed(k)), seg;
      }
      DoneFollows(KeyPlan(AddPlan(p.cfg, set_, rows), false), k, seg);
      return None, seg;
    }

    lemma EntryOwned(k: RowKey)
      requires snap.Valid()
      ensures forall r | r in snap.RowsFor(k) :: r in snap.owned
    {
    }

    /** The loop of removeSurplus, over a copy of the entry. */
    method DeleteSurplus(set_: Desired) returns (err: Option<ApplyError>, ghost seg: seq<Event>)
      requires Sane() && WorldInv(Pair())
      modifies this`wrote, this`writes, p`pending, p.client.fw, snap`byKey, snap`entries, snap`arrays, snap.arrays
      ensures Stretch(old(Now()), seg) && snap.Grown()
      ensures
        var plan := RemovePlan(set_, RowsAt(old(Pair()).index, set_.key));
        Follows(plan, set_.key, seg) && (err.Some? <==> Errs(plan, seg))
      ensures err.Some? ==> Explains(err.value, set_.key, seg)
    {
      hide WorldInv, Steps, Heard, Records, Done, Cut, Follows, Errs, EnabledChildren, HasUuid, Distinct, RemovePlan;
      hide Firewall.Saved, Firewall.Valid, Snapshot.Filing, Snapshot.Stored, Snapshot.Index, Provider.Valid, Stretch,
           Explains;
      var k := set_.key;
      ghost var m, ops := Now(), [];
      seg := [];
      StretchStart(m);
      NothingDone(k);
      EntryIsDistinct(k);
      snap.EntryViews(k);
      var existing := snap.CopyRows(k);
      ghost var rows := Views(existing);
      AllIndexed(rows);
      for i := 0 to |existing|
        invariant snap.Grown() && snap.Valid()
        invariant Stretch(m, seg) && Done(ops, k, seg) && Views(existing) == rows
        invariant RemovePlan(set_, rows[..i]) == KeyPlan(ops, false)
        invariant forall j | i <= j < |rows| :: HasUuid(RowsAt(Pair().index, k), rows[j].uuid)
      {
        var r := existing[i];
        assert r.View() == rows[i];
        RemovePlanNext(set_, rows, i);
        if TargetOf(r.View()) !in set_.targets {
          if EnabledChildren(r.children) {
            DoneFollows(RemovePlan(set_, rows), k, seg);
            DoneExplains(ops, k, seg, r.uuid);
            return Some(AliasBlocked(k, r.uuid)), seg;
          }
          var ok;
          OnlyOnce(k, rows, i);
          ok, seg, ops := DelNext(m, seg, ops, k, r.uuid);
          if !ok {
            CutFollows(RemovePlan(set_, rows), k, ops, seg);
            CutExplains(ops, k, seg);
            return Some(WriteFailed(k)), seg;
          }
        }
      }
      assert rows[..|existing|] == rows;
      DoneFollows(RemovePlan(set_, rows), k, seg);
      return None, seg;
    }

    /** removeSurplus: deletes in row order, up to the first blocked row or unacknowledged call. */
    method RemoveSurplus(set_: Desired) returns (err: Option<ApplyError>, ghost seg: seq<Event>)
      requires Sane() && WorldInv(Pair())
      modifies this`wrote, this`writes, p`pending, p.client.fw, snap`byKey, snap`entries, snap`arrays, snap.arrays
      ensures Stretch(old(Now()), seg) && snap.Grown()
      ensures
        var plan := PlanFor(p.cfg, set_, Remove, set_.key in failed, RowsAt(old(Pair()).index, set_.key));
        Follows(plan, set_.key, seg) && (err.Some? <==> Errs(plan, seg))
      ensures err.Some? ==> Explains(err.value, set_.key, seg)
    {
      hide WorldInv, Steps, Heard, Records, RemovePlan, RowsAt;
      hide Firewall.Saved, Firewall.Valid, Snapshot.Filing, Snapshot.Stored, Snapshot.Index, Provider.Valid, Stretch;
      if set_.targets != {} && set_.key in failed {
        StretchStart(Now());
        return None, [];
      }
      err, seg := DeleteSurplus(set_);
    }

    lemma OnlyOnce(k: RowKey, rows: seq<Row>, i: nat)
      requires i < |rows| && Distinct(rows)
      ensures forall j | i < j < |rows| :: rows[j].uuid != rows[i].uuid
    {
    }

    /** converge: one key's calls in one mode are exactly those of its plan, up to the first one not acknowledged. */
    method Converge(k: RowKey, mode: Mode) returns (err: Option<ApplyError>, ghost seg: seq<Event>)
      requires Valid() && k in job.sets
      modifies this`wrote, this`writes, p`pending, p.client.fw, snap, snap.owned, snap.arrays
      ensures Stretch(old(Now()), seg) && Valid()
      ensures snap.Grown()
      ensures
        var plan := PlanFor(job.cfg, job.sets[k], mode, k in failed, RowsAt(old(Pair()).index, k));
        Follows(plan, k, seg) && (err.Some? <==> Errs(plan, seg))
      ensures err.Some? ==> Explains(err.value, k, seg)
    {
      hide WorldInv, Steps, Heard, Records, Follows, Errs, AddPlan, RemovePlan, Firewall.Saved, Firewall.Valid,
           Snapshot.Filing, Snapshot.Stored, Snapshot.Index;
      match mode {
        case AddSet => err, seg := AddSet(job.sets[k]);
        case Remove => err, seg := RemoveSurplus(job.sets[k]);
      }
    }
  }

  /** The lookup addSet makes of a key's rows: the last row for each target. */
  ghost predicate LooksUp(byTarget: map<string, HostRow>, existing: seq<HostRow>, rows: seq<Row>)
    requires |rows| == |existing|
  {
    forall t ::
      (t in byTarget <==> LastWith(rows, t) >= 0) && (t in byTarget ==> byTarget[t] == existing[LastWith(rows, t)])
  }

  lemma PositionOf(entry: seq<HostRow>, row: HostRow) returns (j: nat)
    requires row in entry
    ensures j < |entry| && entry[j] == row
  {
    j :| j < |entry| && entry[j] == row;
  }

  /** The surplus rows found after the refreshes are those the plan was made for. */
  lemma SurplusStays(set_: Desired, before: seq<Row>, now: seq<Row>, surplus: seq<HostRow>)
    requires SameTargets(before, now) && Views(surplus) == Surplus(set_, now)
    ensures |surplus| == |Surplus(set_, before)|
    ensures forall i | 0 <= i < |surplus| :: surplus[i].uuid == Surplus(set_, before)[i].uuid
  {
    SurplusSame(set_, before, now);
    ViewFacts(surplus);
  }

  lemma ViewFacts(entry: seq<HostRow>)
    ensures |Views(entry)| == |entry| && forall i | 0 <= i < |entry| :: Views(entry)[i].uuid == entry[i].uuid
  {
  }

  lemma ViewsUpdated(entry: seq<HostRow>, was: seq<Row>, j: nat)
    requires |was| == |entry| && j < |entry| && forall i | 0 <= i < |entry| && i != j :: entry[i].View() == was[i]
    ensures Views(entry) == was[j := entry[j].View()]
  {
  }
}
