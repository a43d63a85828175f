/**
 * The write lock of the client (writeMu of internal/opnsense/client.go) over a firewall
 * whose save is a load, a change and a store with nothing around them.
 */
module WriteLock {
  import opened Rows
  import opened Table

  /** A committed write and the identity it concerns. */
  datatype Commitment = Commitment(op: Op, id: Uuid)

  /**
   * A worker's call: waiting for the lock, holding it between attempts, its request loaded
   * by the firewall, answered by the firewall, or back with its caller.
   */
  datatype CallAt =
    | Waiting(op: Op)
    | Holding(op: Op)
    | Loaded(op: Op, base: Table)
    | Handled(op: Op, kept: bool)
    | Finished(op: Op, acked: bool)

  datatype State = State(saved: Table, lock: Option<nat>, calls: map<nat, CallAt>, log: seq<Commitment>)

  datatype Step =
    | Submit(w: nat, op: Op)
    | Acquire(w: nat)
    // The firewall reads its config for a request.
    | Load(w: nat)
    // It stores what it read with the change made; a refused, failed or lost write stores nothing.
    | Store(w: nat, id: Uuid, kept: bool)
    // The client tries again without letting go of the lock.
    | Retry(w: nat)
    // The answer, whatever it is; the lock is released.
    | Answer(w: nat, acked: bool)

  /** Whether a step can be taken; without the mutex nobody waits for anybody. */
  predicate Enabled(s: State, step: Step, mutex: bool) {
    match step
    case Submit(w, _) => w !in s.calls
    case Acquire(w) => w in s.calls && s.calls[w].Waiting? && (mutex ==> s.lock == None)
    case Load(w) => w in s.calls && s.calls[w].Holding?
    case Store(w, id, _) => w in s.calls && s.calls[w].Loaded? && (s.calls[w].op.Add? || id == s.calls[w].op.uuid)
    case Retry(w) => w in s.calls && s.calls[w].Handled?
    case Answer(w, acked) => w in s.calls && s.calls[w].Handled?
  }

  function Next(s: State, step: Step): State {
    match step
    case Submit(w, op) => s.(calls := s.calls[w := Waiting(op)])
    case Acquire(w) => if w in s.calls then s.(lock := Some(w), calls := s.calls[w := Holding(s.calls[w].op)]) else s
    case Load(w) => if w in s.calls then s.(calls := s.calls[w := Loaded(s.calls[w].op, s.saved)]) else s
    case Store(w, id, kept) =>
      if w in s.calls && s.calls[w].Loaded? then
        var op := s.calls[w].op;
        var t := s.(calls := s.calls[w := Handled(op, kept)]);
        if kept then t.(saved := Commit(s.calls[w].base, op, id), log := s.log + [Commitment(op, id)]) else t
      else s
    case Retry(w) => if w in s.calls then s.(calls := s.calls[w := Holding(s.calls[w].op)]) else s
    case Answer(w, acked) => if w in s.calls
      then s.(lock := None, calls := s.calls[w := Finished(s.calls[w].op, acked)]) else s
  }

  /** A run from the table t. */
  ghost predicate Run(t: Table, states: seq<State>, steps: seq<Step>, mutex: bool) {
    && |states| == |steps| + 1 && states[0] == State(t, None, map[], [])
    && forall i | 0 <= i < |steps| :: Enabled(states[i], steps[i], mutex) && states[i + 1] == Next(states[i], steps[i])
  }

  /** The writes of a log made one after another. */
  function Replay(t: Table, log: seq<Commitment>): Table {
    if log == [] then t
    else Commit(Replay(t, log[..|log| - 1]), log[|log| - 1].op, log[|log| - 1].id)
  }

  predicate InRequest(c: CallAt) {
    c.Holding? || c.Loaded? || c.Handled?
  }

  ghost predicate Invariant(t: Table, s: State) {
    && s.saved == Replay(t, s.log)
    && (forall w | w in s.calls && InRequest(s.calls[w]) :: s.lock == Some(w))
    && (forall w | w in s.calls && s.calls[w].Loaded? :: s.calls[w].base == s.saved)
  }

  lemma StepKeeps(t: Table, s: State, step: Step)
    requires Invariant(t, s) && Enabled(s, step, true)
    ensures Invariant(t, Next(s, step))
  {
    if step.Store? && step.kept {
      var c := Commitment(s.calls[step.w].op, step.id);
      assert (s.log + [c])[..|s.log|] == s.log;
    }
  }

  /**
   * Under the lock the saved table is, at every point of every interleaving, what the
   * committed writes make of it one after another: none overwrites another unseen.
   */
  lemma {:induction false} WritesAreSerial(t: Table, states: seq<State>, steps: seq<Step>, n: nat)
    requires Run(t, states, steps, true) && n < |states|
    ensures Invariant(t, states[n]) && states[n].saved == Replay(t, states[n].log)
  {
    if n > 0 {
      WritesAreSerial(t, states, steps, n - 1);
      StepKeeps(t, states[n - 1], steps[n - 1]);
    }
  }

  /** The last committed write of a row decides what the row is. */
  lemma {:induction false} LastWriteStands(t: Table, log: seq<Commitment>, p: nat)
    requires p < |log| && forall q | p < q < |log| :: log[q].id != log[p].id
    ensures
      var u, before := log[p].id, Replay(t, log[..p]);
      && (log[p].op.Add? ==> u in Replay(t, log) && Replay(t, log)[u] == SavedRow(u, log[p].op.f, []))
      && (log[p].op.Set? && u in before ==>
        u in Replay(t, log) && Replay(t, log)[u] == SavedRow(u, log[p].op.f, before[u].children))
      && (log[p].op.Del? ==> u !in Replay(t, log))
  {
    var front := log[..|log| - 1];
    if p < |log| - 1 {
      LastWriteStands(t, front, p);
      assert front[..p] == log[..p];
    } else {
      assert front == log[..p];
    }
  }

  /**
   * No committed write is overwritten: a row reads as its last committed write left it,
   * whoever wrote other rows since.
   */
  lemma NothingIsOverwritten(t: Table, states: seq<State>, steps: seq<Step>, n: nat, p: nat)
    requires Run(t, states, steps, true) && n < |states|
    requires p < |states[n].log| && forall q | p < q < |states[n].log| :: states[n].log[q].id != states[n].log[p].id
    ensures
      var c, saved := states[n].log[p], states[n].saved;
      && (c.op.Add? ==> c.id in saved && saved[c.id] == SavedRow(c.id, c.op.f, []))
      && (c.op.Set? && c.id in Replay(t, states[n].log[..p]) ==>
            c.id in saved && saved[c.id] == SavedRow(c.id, c.op.f, Replay(t, states[n].log[..p])[c.id].children))
      && (c.op.Del? ==> c.id !in saved)
  {
    WritesAreSerial(t, states, steps, n);
    LastWriteStands(t, states[n].log, p);
  }

  /** Without the lock two adds can both be committed and acknowledged, and one of the rows never exist. */
  lemma WithoutTheLock(t: Table, f: Fields, g: Fields, x: Uuid, y: Uuid) returns (states: seq<State>, steps: seq<Step>)
    requires x !in t && y !in t && x != y
    ensures Run(t, states, steps, false) && |states| > 0
    ensures
      var s := states[|states| - 1];
      && s.log == [Commitment(Add(f), x), Commitment(Add(g), y)]
      && s.calls == map[0 := Finished(Add(f), true), 1 := Finished(Add(g), true)]
      && x !in s.saved && y in s.saved
  {
    hide Run;
    states, steps := [State(t, None, map[], [])], [];
    Nothing(t);
    states, steps := Append(t, states, steps, Submit(0, Add(f)));
    states, steps := Append(t, states, steps, Submit(1, Add(g)));
    states, steps := Append(t, states, steps, Acquire(0));
    states, steps := Append(t, states, steps, Acquire(1));
    states, steps := Append(t, states, steps, Load(0));
    states, steps := Append(t, states, steps, Load(1));
    states, steps := Append(t, states, steps, Store(0, x, true));
    states, steps := Append(t, states, steps, Store(1, y, true));
    states, steps := Append(t, states, steps, Answer(0, true));
    states, steps := Append(t, states, steps, Answer(1, true));
  }

  lemma Nothing(t: Table)
    ensures Run(t, [State(t, None, map[], [])], [], false)
  {
  }

  /** One more step of a run without the lock. */
  lemma Append(t: Table, states: seq<State>, steps: seq<Step>, step: Step)
      returns (states': seq<State>, steps': seq<Step>)
    requires |states| > 0 && Run(t, states, steps, false) && Enabled(states[|states| - 1], step, false)
    ensures Run(t, states', steps', false) && |states'| == |states| + 1
    ensures states'[|states'| - 1] == Next(states[|states| - 1], step)
  {
    states', steps' := states + [Next(states[|states| - 1], step)], steps + [step];
  }
}
