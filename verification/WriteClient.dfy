/** The client's retry loop and its write calls (internal/opnsense/client.go, transport.go). */
module WriteClient {
  import opened Rows
  import opened Table
  import opened Engine
  import opened FirewallApi
  import opened Order
  import opened TableSnapshot
  import Paging

  predicate IsRead(req: Request) {
    req.Search? || req.LocalData?
  }

  /** Requests that may be repeated on a server error or a broken connection: reads and deletes. */
  predicate Idempotent(req: Request) {
    IsRead(req) || (req.Write? && req.op.Del?)
  }

  /** The retry policy: a 429 for any request, a 5xx or a broken connection for idempotent ones. */
  predicate Retryable(req: Request, resp: Response) {
    match resp
    case Http(code) => code == TOO_MANY_REQUESTS || (500 <= code < 600 && Idempotent(req))
    case NetworkError => Idempotent(req)
    case _ => false
  }

  function MaxAttempts(retryAttempts: int): int {
    if retryAttempts < 1 then 1 else retryAttempts
  }

  /** A failure that passes: a 429, a server error or a broken connection. */
  predicate Passing(f: Fault) {
    match f
    case Status(code, _) => code == 429 || 500 <= code <= 599
    case Broken(_) => true
    case _ => false
  }

  /** The coming faults pass within the attempts: fewer passing ones than attempts, then none. */
  ghost predicate Clears(faults: seq<Fault>, attempts: int) {
    exists m: nat | m < attempts ::
      (forall j | 0 <= j < m :: Passing(Upcoming(faults, j))) && Upcoming(faults, m) == NoFault
  }

  /** The identity a write concerns. */
  predicate Concerns(op: Op, id: Uuid) {
    op.Add? || id == op.uuid
  }

  /** The saved table after a write that did or did not commit. */
  function After(t: Table, op: Op, id: Uuid, applied: bool): Table {
    if applied then Commit(t, op, id) else t
  }

  class Client {
    const fw: Firewall
    const retryAttempts: int

    constructor (fw: Firewall, retryAttempts: int)
      ensures this.fw == fw && this.retryAttempts == retryAttempts
    {
      this.fw, this.retryAttempts := fw, retryAttempts;
    }

    /** What a read of the firewall as it is answers. */
    function Current(req: Request): Response
      requires IsRead(req) && RowOrder(fw.order) && Distinct(fw.rows)
      reads fw
    {
      match req
      case Search(n, pageSize) => Listed(Paging.PageOf(Sorted(fw.order, fw.rows, fw.aliases), n, pageSize))
      case LocalData => Data(fw.served)
    }

    /**
     * One attempt of a request. applied says whether a write or a reload took effect; a
     * delete of a row that is not there counts as applied.
     */
    method Once(req: Request) returns (resp: Response, id: Uuid, ghost applied: bool)
      requires fw.Valid()
      modifies if req.Write? then {fw} else {}, fw`served, fw`faults, fw`struck
      ensures fw.Valid() && fw.struck >= old(fw.struck)
      ensures resp == Http(TOO_MANY_REQUESTS) ==> !applied
      ensures req.Write? ==>
        && Concerns(req.op, id) &&
          (if req.op.Add? then id == old(fw.next) && fw.next == id + 1 else fw.next == old(fw.next))
        && fw.Saved() == After(old(fw.Saved()), req.op, id, applied) && fw.history == old(fw.history) + [fw.Saved()]
        && (if Refused(old(fw.Saved()), req.op) then resp == Failed && !applied
            else (Good(resp) && applied) || fw.struck > old(fw.struck))
        && (req.op.Add? && Good(resp) ==> resp == Response.Saved(id))
      ensures req.Reload? ==> (resp.StatusOk? ==> applied) && if applied then fw.Published()
        else fw.served == old(fw.served)
      ensures !req.Reload? ==> fw.served == old(fw.served)
      ensures !req.Write? ==> Good(resp) || fw.struck > old(fw.struck)
      ensures req.Reload? && Good(resp) ==> resp.StatusOk?
      ensures IsRead(req) && Good(resp) ==> resp == Current(req)
      ensures Idempotent(req) ==> Meets(old(fw.faults), resp, fw.faults)
    {
      hide Firewall.Saved, Firewall.Valid, SavedRow, Acceptable, TableOf, Publish, Sorted, RowOrder;
      id, applied := 0, false;
      match req {
        case Write(Add(f)) =>
          ghost var fault;
          resp, id, fault := fw.HandleAdd(f);
          applied := Acceptable(f) && Commits(fault);
        case Write(Set(u, f)) =>
          ghost var fault;
          resp, fault := fw.HandleSet(u, f);
          id := u;
          applied := !Refused(old(fw.Saved()), req.op) && Commits(fault);
        case Write(Del(u)) =>
          ghost var fault;
          resp, fault := fw.HandleDel(u);
          id := u;
          applied := resp.NotFound? || Commits(fault);
        case Reload =>
          ghost var fault;
          resp, fault := fw.HandleReload();
          applied := Commits(fault);
        case Search(n, pageSize) =>
          resp := fw.HandleSearch(n, pageSize);
        case LocalData =>
          resp := fw.HandleLocalData();
      }
    }

    /**
     * One attempt of a read or a delete: a missing row is no fault's business, otherwise the
     * next fault decides the answer.
     */
    predicate Meets(before: seq<Fault>, resp: Response, now: seq<Fault>) {
      || (resp == NotFound && now == before)
      || (now == Later(before, 1) && match Upcoming(before, 0)
            case NoFault => Good(resp)
            case LostWrite => Good(resp)
            case Status(code, _) => resp == Http(code)
            case Broken(_) => resp == NetworkError
            case Garbled(_) => resp == Unreadable)
    }

    /**
     * A sequence of attempts the retry policy allows: all but the last retryable, and it
     * stops short only when cancelled.
     */
    predicate Tried(req: Request, tries: seq<Response>, resp: Option<Response>) {
      && 1 <= |tries| <= MaxAttempts(retryAttempts)
      && (forall i | 0 <= i < |tries| - 1 :: Retryable(req, tries[i]))
      && match resp
         case Some(r) => r == tries[|tries| - 1] && (Retryable(req, r) ==> |tries| == MaxAttempts(retryAttempts))
         case None => Retryable(req, tries[|tries| - 1]) && |tries| < MaxAttempts(retryAttempts)
    }

    /**
     * do: the attempt loop. None is a context cancelled while waiting. For an add, a set or
     * a reload every attempt but the last got a 429, so only the last can have taken effect.
     */
    method Do(req: Request) returns (resp: Option<Response>, id: Uuid, ghost applied: bool, ghost tries: seq<Response>)
      requires fw.Valid()
      modifies if req.Write? then {fw} else {}, fw`served, fw`faults, fw`struck
      ensures fw.Valid() && fw.struck >= old(fw.struck) && Tried(req, tries, resp)
      ensures !Idempotent(req) ==> forall i | 0 <= i < |tries| - 1 :: tries[i] == Http(TOO_MANY_REQUESTS)
      ensures req.Write? ==>
        && Concerns(req.op, id) &&
          (if req.op.Add? then old(fw.next) <= id && fw.next == id + 1 else fw.next == old(fw.next))
        && fw.Saved() == After(old(fw.Saved()), req.op, id, applied)
        && Between(old(fw.history), fw.history, old(fw.Saved()), fw.Saved())
        && (if Refused(old(fw.Saved()), req.op) then !applied && (resp.Some? ==> !Good(resp.value))
            else (resp.Some? && Good(resp.value) && applied) || fw.struck > old(fw.struck))
        && (req.op.Add? && resp.Some? && Good(resp.value) ==> resp.value == Response.Saved(id))
      ensures req.Reload? ==> if applied then fw.Published() else fw.served == old(fw.served)
      ensures req.Reload? && resp.Some? && resp.value.StatusOk? ==> applied
      ensures !req.Reload? ==> fw.served == old(fw.served)
      ensures !req.Write? ==> (resp.Some? && Good(resp.value)) || fw.struck > old(fw.struck)
      ensures req.Reload? && resp.Some? && Good(resp.value) ==> resp.value.StatusOk?
      ensures IsRead(req) && resp.Some? && Good(resp.value) ==> resp.value == Current(req)
      ensures Idempotent(req) && resp.Some? && Clears(old(fw.faults), MaxAttempts(retryAttempts)) ==> Good(resp.value)
    {
      hide Firewall.Saved, Firewall.Valid, SavedRow, Acceptable, TableOf, Publish, Sorted, RowOrder;
      hide Meets, Clears, StillStriking, Later;
      NoneStruck(fw.faults);
      var attempts := MaxAttempts(retryAttempts);
      var attempt := 0;
      tries, applied := [], false;
      id := if req.Write? && !req.op.Add? then req.op.uuid else 0;
      while true
        invariant 0 <= attempt < attempts && |tries| == attempt && fw.Valid()
        invariant forall i | 0 <= i < |tries| :: Retryable(req, tries[i])
        invariant !Idempotent(req) ==> !applied && forall i | 0 <= i < |tries| :: tries[i] == Http(TOO_MANY_REQUESTS)
        invariant fw.served == old(fw.served)
        invariant req.Write? ==>
          && Concerns(req.op, id) && fw.next >= old(fw.next) && (!req.op.Add? ==> fw.next == old(fw.next))
          && fw.Saved() == After(old(fw.Saved()), req.op, id, applied)
          && Between(old(fw.history), fw.history, old(fw.Saved()), fw.Saved())
          && (attempt > 0 ==> !Refused(old(fw.Saved()), req.op))
        invariant fw.struck >= old(fw.struck) + if attempt > 0 then 1 else 0
        invariant Idempotent(req) ==>
          fw.faults == Later(old(fw.faults), attempt) && StillStriking(old(fw.faults), attempt)
        decreases attempts - attempt
      {
        ghost var coming := fw.faults;
        var r, newId, done := Once(req);
        if Idempotent(req) {
          MeetsNext(req, old(fw.faults), attempt, coming, r, fw.faults);
        }
        id := if req.Write? then newId else id;
        tries := tries + [r];
        applied := applied || done;
        if !Retryable(req, r) || attempt == attempts - 1 {
          return Some(r), id, applied, tries;
        }
        var cancelled: bool := *;
        if cancelled {
          return None, id, applied, tries;
        }
        attempt := attempt + 1;
      }
    }

    /** The first faults all struck. */
    predicate StillStriking(faults: seq<Fault>, n: nat) {
      forall j | 0 <= j < n :: Upcoming(faults, j) != NoFault
    }

    lemma NoneStruck(faults: seq<Fault>)
      ensures Later(faults, 0) == faults && StillStriking(faults, 0)
    {
    }

    /**
     * After a retryable answer one more fault has struck; an answer that ends the loop is
     * good if the faults clear by then.
     */
    lemma MeetsNext(req: Request, faults: seq<Fault>, n: nat, before: seq<Fault>, r: Response, now: seq<Fault>)
      requires Idempotent(req) && before == Later(faults, n) && StillStriking(faults, n) && Meets(before, r, now)
      ensures Retryable(req, r) ==> now == Later(faults, n + 1) && StillStriking(faults, n + 1)
      ensures forall attempts: int | Clears(faults, attempts) && n < attempts &&
        (Retryable(req, r) ==> n == attempts - 1) :: Good(r)
    {
      assert Upcoming(before, 0) == Upcoming(faults, n);
    }

    /**
     * The retry policy in figures: at most retryAttempts attempts, and one at least; a
     * request stops short only on an answer that does not pass, and is repeated only on
     * one that does. A 429 passes for every request; a 5xx and a broken connection pass for
     * reads and deletes alone.
     */
    lemma RetryPolicy(req: Request, tries: seq<Response>, resp: Option<Response>)
      requires Tried(req, tries, resp)
      ensures
        var attempts := if retryAttempts <= 1 then 1 else retryAttempts;
        var repeatable := req.Search? || req.LocalData? || (req.Write? && req.op.Del?);
        && 1 <= |tries| <= attempts
        && (resp.Some? && |tries| < attempts ==>
              && resp.value != Http(429)
              && (repeatable ==> resp.value != NetworkError && !(resp.value.Http? && 500 <= resp.value.code <= 599)))
        && (forall i | 0 <= i < |tries| - 1 ::
              || tries[i] == Http(429)
              || (repeatable && (tries[i] == NetworkError || (tries[i].Http? && 500 <= tries[i].code <= 599))))
    {
    }

    /** AddHostOverride: the new row's identity, or None on any error. It creates at most one row. */
    method AddHostOverride(k: RowKey, f: Fields) returns (r: Option<Uuid>, ghost e: Event, ghost tries: seq<Response>)
      requires fw.Valid()
      modifies fw
      ensures fw.Valid() && fw.served == old(fw.served) && fw.next == e.id + 1 && fw.struck >= old(fw.struck)
      ensures e.key == k && e.op == Add(f) && old(fw.next) <= e.id
      ensures r == if e.acked then Some(e.id) else None
      ensures fw.Saved() == TableStep(old(fw.Saved()), e)
      ensures Between(old(fw.history), fw.history, old(fw.Saved()), fw.Saved())
      ensures Refused(old(fw.Saved()), e.op) ==> !e.acked && !e.applied
      ensures !Refused(old(fw.Saved()), e.op) ==> (e.acked && e.applied) || fw.struck > old(fw.struck)
      ensures 1 <= |tries| <= MaxAttempts(retryAttempts)
      ensures forall i | 0 <= i < |tries| - 1 :: tries[i] == Http(TOO_MANY_REQUESTS)
    {
      ghost var applied;
      var resp, id;
      resp, id, applied, tries := Do(Write(Add(f)));
      var acked := resp.Some? && resp.value.Saved?;
      e := Event(k, Add(f), id, acked, applied);
      r := if acked then Some(resp.value.uuid) else None;
    }

    /** SetHostOverride: true when the firewall answered saved. */
    method SetHostOverride(k: RowKey, u: Uuid, f: Fields) returns (ok: bool, ghost e: Event)
      requires fw.Valid()
      modifies fw
      ensures fw.Valid() && fw.served == old(fw.served) && fw.next == old(fw.next) && fw.struck >= old(fw.struck)
      ensures e == Event(k, Set(u, f), u, ok, e.applied)
      ensures fw.Saved() == TableStep(old(fw.Saved()), e)
      ensures Between(old(fw.history), fw.history, old(fw.Saved()), fw.Saved())
      ensures Refused(old(fw.Saved()), e.op) ==> !e.acked && !e.applied
      ensures !Refused(old(fw.Saved()), e.op) ==> (e.acked && e.applied) || fw.struck > old(fw.struck)
    {
      ghost var applied, tries;
      var resp, id;
      resp, id, applied, tries := Do(Write(Set(u, f)));
      ok := resp.Some? && Good(resp.value);
      e := Event(k, Set(u, f), u, ok, applied);
    }

    /** DelHostOverride: None on an error, Some(true) when deleted, Some(false) when the row was already gone. */
    method DelHostOverride(k: RowKey, u: Uuid) returns (r: Option<bool>, ghost e: Event)
      requires fw.Valid()
      modifies fw
      ensures fw.Valid() && fw.served == old(fw.served) && fw.next == old(fw.next) && fw.struck >= old(fw.struck)
      ensures e == Event(k, Del(u), u, r.Some?, e.applied)
      ensures fw.Saved() == TableStep(old(fw.Saved()), e)
      ensures Between(old(fw.history), fw.history, old(fw.Saved()), fw.Saved())
      ensures (e.acked && e.applied) || fw.struck > old(fw.struck)
      ensures u !in old(fw.Saved()) ==> fw.Saved() == old(fw.Saved())
    {
      ghost var applied, tries;
      var resp, id;
      resp, id, applied, tries := Do(Write(Del(u)));
      r := if resp.Some? && Good(resp.value) then Some(resp.value.Deleted?) else None;
      e := Event(k, Del(u), u, r.Some?, applied);
    }

    /** Reconfigure: on success the served entries are those of the saved config; on an error they may be either. */
    method Reconfigure() returns (ok: bool)
      requires fw.Valid()
      modifies fw`served, fw`faults, fw`struck
      ensures fw.Valid() && fw.struck >= old(fw.struck)
      ensures ok ==> fw.Published()
      ensures !ok ==> fw.struck > old(fw.struck) && (fw.Published() || fw.served == old(fw.served))
    {
      var resp, id;
      ghost var applied, tries;
      resp, id, applied, tries := Do(Reload);
      ok := resp.Some? && resp.value.StatusOk?;
    }

    /** ListLocalData: what is served, or an error that cost a fault. */
    method ListLocalData() returns (r: Option<seq<Served>>)
      requires fw.Valid()
      modifies fw`served, fw`faults, fw`struck
      ensures fw.Valid() && fw.struck >= old(fw.struck) && fw.served == old(fw.served)
      ensures if r.Some? then r.value == fw.served else fw.struck > old(fw.struck)
    {
      var resp, id;
      ghost var applied, tries;
      resp, id, applied, tries := Do(LocalData);
      r := if resp.Some? && Good(resp.value) then Some(resp.value.entries) else None;
    }

    /** SearchHostOverrides: one page of the table, or a failure that cost a fault. */
    method SearchHostOverrides(n: nat, pageSize: nat) returns (page: Paging.Answer)
      requires fw.Valid()
      modifies fw`served, fw`faults, fw`struck
      ensures fw.Valid() && fw.struck >= old(fw.struck) && fw.served == old(fw.served)
      ensures page.Failed? ==> fw.struck > old(fw.struck)
      ensures page.Page? ==> page == Paging.PageOf(Sorted(fw.order, fw.rows, fw.aliases), n, pageSize)
    {
      var resp, id;
      ghost var applied, tries;
      resp, id, applied, tries := Do(Search(n, pageSize));
      page := if resp.Some? && Good(resp.value) then resp.value.page else Paging.Failed;
    }

    /** One page request after another: each answer is the page asked for, or cost a fault. */
    ghost predicate Heard(answers: Paging.Answers, pageSize: nat, faulted: bool)
      requires fw.Valid()
      reads fw
    {
      forall n: nat | n < |answers| ::
        if answers[n].Failed? then faulted
          else answers[n] == Paging.PageOf(Sorted(fw.order, fw.rows, fw.aliases), n, pageSize)
    }

    /** readAll: the page loop. Each page is judged before the next one is asked for. */
    method ReadAll(pageSize: nat) returns (r: Paging.ReadResult, ghost answers: Paging.Answers)
      requires fw.Valid() && pageSize > 0
      modifies fw`served, fw`faults, fw`struck
      ensures fw.Valid() && fw.struck >= old(fw.struck) && fw.served == old(fw.served)
      ensures (r, |answers|) == Paging.ReadSpec(Paging.ServerOf(answers), pageSize)
      ensures Heard(answers, pageSize, fw.struck > old(fw.struck))
      ensures r.ReadError? ==> fw.struck > old(fw.struck)
    {
      hide Sorted, Paging.PageOf, Paging.ReadSoFar, Paging.ReadSpec, Paging.ServerOf, Paging.Collect;
      var seen: set<Uuid> := {};
      var rows: seq<Row> := [];
      var total := -1;
      var current := 1;
      answers := [];
      Paging.ReadStarts(pageSize);
      while true
        invariant fw.Valid() && fw.struck >= old(fw.struck) && fw.served == old(fw.served)
        invariant current == |answers| + 1 && (total < 0 || current > 1)
        invariant Paging.Tally(seen, rows) && Paging.ReadSoFar(answers, pageSize, total, rows)
        invariant Heard(answers, pageSize, fw.struck > old(fw.struck))
        decreases if total < 0 then 1 else 0, if total < 0 then 0 else Paging.MaxPages(total, pageSize) + 1 - current
      {
        var page := SearchHostOverrides(current - 1, pageSize);
        Paging.ReadNext(answers, pageSize, total, rows, page);
        answers := answers + [page];
        if page.Failed? {
          return Paging.ReadError, answers;
        }
        if total < 0 {
          total := page.total;
        } else if page.total != total {
          return Paging.Inconsistent, answers;
        }
        if total == 0 {
          return Paging.Accepted([]), answers;
        }
        if current > Paging.MaxPages(total, pageSize) {
          return Paging.Inconsistent, answers;
        }
        if page.rows == [] {
          if |seen| == total {
            return Paging.Accepted(rows), answers;
          }
          return Paging.Inconsistent, answers;
        }
        seen, rows := Paging.CollectPage(seen, rows, page.rows);
        if |seen| > total {
          return Paging.Inconsistent, answers;
        }
        if |seen| == total {
          return Paging.Accepted(rows), answers;
        }
        current := current + 1;
      }
    }

    /** What one read answers from the table as it is: all of it, or an error that cost a fault. */
    lemma HeardAll(answers: Paging.Answers, pageSize: nat, faulted: bool)
      requires fw.Valid() && pageSize > 0 && Heard(answers, pageSize, faulted)
      requires Paging.ReadSpec(Paging.ServerOf(answers), pageSize).0.ReadError? ==> faulted
      ensures
        var r := Paging.ReadSpec(Paging.ServerOf(answers), pageSize).0;
        if r.Accepted? then Listing(r.rows, fw.Saved()) else faulted
    {
      var listing := Sorted(fw.order, fw.rows, fw.aliases);
      SortedLists(fw.order, fw.rows, fw.aliases);
      Paging.StaticReadIsComplete(listing, Paging.ServerOf(answers), pageSize);
    }

    /**
     * Snapshot: whole reads until one is accepted, a page request fails, or the attempts
     * run out. It returns every saved row once, or an error that cost a fault; never part
     * of the table.
     */
    method ReadTable(pageSize: nat, readAttempts: nat) returns (r: Option<seq<Row>>, ghost rounds: seq<Paging.Answers>)
      requires fw.Valid() && pageSize > 0 && readAttempts > 0
      modifies fw`served, fw`faults, fw`struck
      ensures fw.Valid() && fw.struck >= old(fw.struck) && fw.served == old(fw.served)
      ensures 1 <= |rounds| <= readAttempts
      ensures forall i | 0 <= i < |rounds| - 1 ::
        Paging.ReadSpec(Paging.ServerOf(rounds[i]), pageSize).0 == Paging.Inconsistent
      ensures
        var last := Paging.ReadSpec(Paging.ServerOf(rounds[|rounds| - 1]), pageSize).0;
        if r.Some? then last == Paging.Accepted(r.value)
        else !last.Accepted? && (last.Inconsistent? ==> |rounds| == readAttempts)
      ensures if r.Some? then Listing(r.value, fw.Saved()) else fw.struck > old(fw.struck)
    {
      hide Firewall.Saved, Firewall.Valid, Paging.ReadSpec, Paging.ServerOf, Listing, Heard;
      rounds := [];
      for attempt := 0 to readAttempts
        invariant fw.Valid() && fw.struck >= old(fw.struck) && fw.served == old(fw.served) && |rounds| == attempt
        invariant forall i | 0 <= i < |rounds| ::
          Paging.ReadSpec(Paging.ServerOf(rounds[i]), pageSize).0 == Paging.Inconsistent
        invariant rounds != [] ==> fw.struck > old(fw.struck)
      {
        ghost var was := fw.struck;
        var got;
        ghost var answers;
        got, answers := ReadAll(pageSize);
        HeardAll(answers, pageSize, fw.struck > was);
        rounds := rounds + [answers];
        match got {
          case Accepted(rows) => return Some(rows), rounds;
          case ReadError => return None, rounds;
          case Inconsistent =>
        }
      }
      return None, rounds;
    }
  }

  /** A search in order lists every row of the table once. */
  lemma SortedLists(order: (Row, Row) -> bool, rows: seq<Row>, aliases: seq<Alias>)
    requires RowOrder(order) && Distinct(rows)
    ensures Listing(Sorted(order, rows, aliases), TableOf(rows, aliases))
  {
    hide ChildrenOf, FindIn, SortSet;
    var listing, t := Sorted(order, rows, aliases), TableOf(rows, aliases);
    RowsAreOrdered(order, rows, aliases);
    SortSetIncreases(order, set i | 0 <= i < |rows| :: WithChildren(rows[i], aliases));
    forall i | 0 <= i < |listing| ensures listing[i].uuid in t && t[listing[i].uuid] == listing[i] {
      assert listing[i] in listing;
      var j :| 0 <= j < |rows| && listing[i] == WithChildren(rows[j], aliases);
      FindUnique(rows, rows[j].uuid, j);
    }
    forall i, j | 0 <= i < j < |listing| ensures listing[i].uuid != listing[j].uuid {
      assert order(listing[i], listing[j]);
    }
    forall u | u in t ensures HasUuid(listing, u) {
      assert WithChildren(rows[FindIn(rows, u)], aliases) in listing;
    }
  }
}
