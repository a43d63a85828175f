/** What the columns of a written row are, in their own spelling (fields of internal/opnsense/apply.go). */
module Columns {
  import opened Names
  import opened Rows
  import opened Table
  import opened KeyPlan
  import opened Engine
  import opened Converge
  import opened Serving

  /** The body of a write, column by column. */
  lemma BodyColumns(cfg: Config, set_: Desired, t: string)
    requires 0 <= set_.ttl <= 2147483647
    ensures
      var f := FieldsFor(cfg, set_, t);
      && f.enabled == "1" && f.hostname == set_.host && f.domain == set_.domain && f.rr == set_.key.rr
      && (if set_.key.rr == "TXT" then f.txtData == t && f.server == "" else f.server == t && f.txtData == "")
      && f.addPtr == (if cfg.addPtr && set_.key.rr != "TXT" then "1" else "0")
      && f.description == cfg.ownerMarker
      && ParseTTL(f.ttl) == set_.ttl && (set_.ttl == 0 ==> f.ttl == "")
  {
    TTLRoundTrip(set_.ttl);
  }

  /**
   * The firewall's own check, column by column: it needs both halves of a name, a type it
   * knows and a value of that type.
   */
  lemma AcceptsExactly(f: Fields)
    ensures Acceptable(f) <==>
      && f.hostname != "" && f.domain != ""
      && match f.rr
         case "A" => f.server != ""
         case "AAAA" => f.server != ""
         case "TXT" => 1 <= |f.txtData| <= 255
         case "MX" => true
         case _ => false
  {
  }

  /** What a committed write saves: the body's columns, with "1" where a flag is left out, and no MX. */
  lemma SavedColumns(id: Uuid, f: Fields, children: seq<Child>)
    ensures
      var r := SavedRow(id, f, children);
      && r.uuid == id && r.children == children && !r.isAlias && r.mx == "" && r.mxPrio == ""
      && r.enabled == (if f.enabled == "" then "1" else f.enabled) &&
        r.addPtr == (if f.addPtr == "" then "1" else f.addPtr)
      && r.hostname == f.hostname && r.domain == f.domain && r.rr == f.rr && r.server == f.server
      && r.txtData == f.txtData && r.ttl == f.ttl && r.description == f.description
  {
  }

  /** A row that carries target t with the columns this provider writes. */
  ghost predicate Written(cfg: Config, k: RowKey, ttl: int, r: Row, t: string) {
    && Managed(cfg.ownerMarker, r) && KeyOf(r) == k
    && t == (if k.rr == "TXT" then r.txtData else r.server)
    && r.addPtr == (if cfg.addPtr && k.rr != "TXT" then "1" else "0")
    && ParseTTL(r.ttl) == ttl
  }

  ghost predicate ShowsWritten(cfg: Config, k: RowKey, ttl: int, table: Table, t: string) {
    exists u | u in table :: Written(cfg, k, ttl, table[u], t)
  }

  /** A row that is not stale for a target carries it with those columns. */
  lemma FreshIsWritten(cfg: Config, set_: Desired, table: Table, u: Uuid, t: string)
    requires 0 <= set_.ttl <= MAX_TTL && u in At(table, set_.key)
    requires BareTarget(At(table, set_.key)[u]) == t && !Stale(cfg, set_, At(table, set_.key)[u], t)
    ensures u in table && Written(cfg, set_.key, set_.ttl, table[u], t) &&
      ShowsWritten(cfg, set_.key, set_.ttl, table, t)
  {
    hide ParseTTL, TTLField, JoinName, IsEnabled;
    BodyColumns(cfg, set_, t);
  }

  /**
   * After a clean, verified apply every desired target of every record set has a saved row
   * that is switched on and filed there, bears the owner marker, asks for a PTR exactly
   * when that is configured and the record is no TXT, and carries the set's TTL.
   */
  lemma ConvergedColumns(job: Job, start: Engine, recs: seq<PhaseRec>, k: RowKey, t: string)
    requires RunOk(job, start, recs) && RunClean(job, start, recs) && Verified(recs)
    requires k in job.sets && t in job.sets[k].targets
    ensures ShowsWritten(job.cfg, k, job.sets[k].ttl, EngineAt(job, start, recs, PHASES).world.table, t)
  {
    hide PhaseOk, PhaseEnd, RunClean, At, ShowsWritten, Stale;
    var table := EngineAt(job, start, recs, PHASES).world.table;
    NilMeansConverged(job, start, recs);
    assert KeyConverged(job.cfg, job.sets[k], At(table, k));
    var u :| u in At(table, k) && BareTarget(At(table, k)[u]) == t && !Stale(job.cfg, job.sets[k], At(table, k)[u], t);
    assert SetOk(job.sets[k], k);
    FreshIsWritten(job.cfg, job.sets[k], table, u, t);
  }
}
