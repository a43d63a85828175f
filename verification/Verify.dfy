/** What the verification read after a phase detects (verifyPhase and differsFrom of internal/opnsense/apply.go). */
module Verify {
  import opened Names
  import opened Rows
  import opened Table
  import opened KeyPlan
  import opened Engine
  import opened Runs
  import opened Frame

  /** A write that did not land leaves a row that does not read as the write described it. */
  lemma UnwrittenDiffers(cfg: Config, set_: Desired, m: KeyRows, op: Op)
    requires AddOp(cfg, set_, m, op) && op.Set? && 0 <= set_.ttl <= MAX_TTL
    ensures DiffersFrom(m[op.uuid], op.f)
  {
    TTLRoundTrip(set_.ttl);
  }

  /** The saved row of a call's identity is filed under the call's key, if it is there at all. */
  lemma CallRowIsFiled(job: Job, start: Engine, recs: seq<PhaseRec>, i: nat, k: RowKey, j: nat)
    requires RunOk(job, start, recs) && i < PHASES && k in Selected(job, i) && !Gated(EngineAt(job, start, recs, i), i)
    requires j < |Calls(recs, i, k)| && Calls(recs, i, k)[j].acked
    requires WorldInv(EngineAt(job, start, recs, i).world) && Agree(EngineAt(job, start, recs, i).world, k)
    ensures
      var u, t := Calls(recs, i, k)[j].id, EngineAt(job, start, recs, i + 1).world.table;
      u in t <==> u in At(t, k)
  {
    var eng, seg := EngineAt(job, start, recs, i), Calls(recs, i, k);
    var e := seg[j];
    KeyFollows(job, start, recs, i, k);
    KeyPhase(job, start, recs, i, k);
    CallFacts(job, start, recs, i, k, e);
    NextWorld(job, start, recs, i);
    if e.op.Add? {
      KeyAfterOnce(IndexAt(eng.world, k), seg, Indexed, j);
      SameChildren(EngineAt(job, start, recs, i + 1).world, k, e.id);
    } else {
      assert e.id in At(eng.world.table, k);
      RowKeepsKey(job, start, recs, i, |recs[i].events|, e.id, k);
    }
  }

  /**
   * Loss detection is exact: on a key whose index agreed with the table when the phase
   * began, the re-read reports an acknowledged write as lost exactly when the saved table
   * did not take it.
   */
  lemma LossIsExact(job: Job, start: Engine, recs: seq<PhaseRec>, i: nat, k: RowKey, j: nat)
    requires RunOk(job, start, recs) && i < PHASES && j < |Calls(recs, i, k)|
    requires WorldInv(EngineAt(job, start, recs, i).world) && Agree(EngineAt(job, start, recs, i).world, k)
    ensures
      var e := Calls(recs, i, k)[j];
      LostEvent(EngineAt(job, start, recs, i + 1).world.table, e) <==> e.acked && !e.applied
  {
    var eng, seg := EngineAt(job, start, recs, i), Calls(recs, i, k);
    var e, t := seg[j], EngineAt(job, start, recs, i + 1).world.table;
    CallFacts(job, start, recs, i, k, e);
    if e.acked {
      CallRowIsFiled(job, start, recs, i, k, j);
      KeyFollows(job, start, recs, i, k);
      KeyPhase(job, start, recs, i, k);
      KeyAfterOnce(At(eng.world.table, k), seg, Saved, j);
      if e.op.Set? {
        UnwrittenDiffers(job.cfg, job.sets[k], IndexAt(eng.world, k), e.op);
      }
    }
  }

  /**
   * The re-read tells any two written rows apart that differ where it matters: a row saved
   * from one body reads as another one was meant exactly if both have the same name, type,
   * target, TTL, marker and PTR setting.
   */
  lemma OtherBodyIsSeen(c: Config, a: Desired, s: string, d: Config, b: Desired, t: string, id: Uuid,
      children: seq<Child>)
    requires 0 <= a.ttl <= MAX_TTL && 0 <= b.ttl <= MAX_TTL
    ensures DiffersFrom(CoreOf(SavedRow(id, FieldsFor(c, a, s), children)), FieldsFor(d, b, t)) <==>
      || JoinName(a.host, a.domain) != JoinName(b.host, b.domain) || a.key.rr != b.key.rr
      || s != t || a.ttl != b.ttl || c.ownerMarker != d.ownerMarker
      || (a.key.rr != "TXT" && c.addPtr != d.addPtr)
  {
    hide JoinName, ParseTTL, TTLField;
    TTLRoundTrip(a.ttl);
    TTLRoundTrip(b.ttl);
  }

  /**
   * What becomes of a create whose name joins back to another one: the row is saved under
   * that other name, the re-read finds it as written, and the record set it was meant for
   * is as it was. Only updates check where a row belongs.
   */
  lemma MisfiledCreate(cfg: Config, set_: Desired, t: string, table: Table, id: Uuid)
    requires JoinName(set_.host, set_.domain) != set_.key.name && id !in table && 0 <= set_.ttl <= MAX_TTL
    ensures
      var op := Add(FieldsFor(cfg, set_, t));
      var after := Commit(table, op, id);
      && id in after && KeyOf(after[id]).name == JoinName(set_.host, set_.domain)
      && !NotShown(after, op, id)
      && At(after, set_.key) == At(table, set_.key)
  {
    hide JoinName, ParseTTL, TTLField, IsTXT;
    var f := FieldsFor(cfg, set_, t);
    assert Visible(SavedRow(id, f, [])) && KeyOf(SavedRow(id, f, [])) != set_.key;
  }
}
