/**
 * Invariant I4 under concurrency: one apply at a time, any number of readers and the
 * startup check share the pending flag and the reload lock (reconfigure, setPending,
 * Records and servedStateCheck of internal/opnsense/provider.go; markWrite and the end of
 * apply in internal/opnsense/apply.go). Each step is one access to shared state.
 */
module Pending {
  import opened Rows
  import opened FirewallApi

  /** What the firewall has saved. */
  datatype Contents = Contents(rows: seq<Row>, aliases: seq<Alias>)

  /** The apply under the single-writer lock, if any. wrote says that it has marked a write. */
  datatype ApplyAt = Off | Phases(wrote: bool) | Closing(wrote: bool) | Reloading(wrote: bool, published: bool)

  /** A reader or the startup check: waiting for the reload lock, or reloading under it. */
  datatype CallAt = Waiting(repair: bool) | InFlight(repair: bool, published: bool)

  datatype Who = Applier | Caller(id: nat)

  datatype State = State(
    saved: Contents, served: seq<Served>, pending: bool, holder: Option<Who>, apply: ApplyAt, calls: map<nat, CallAt>,
    raised: nat, repairs: nat)

  datatype Step =
    | Begin
    | ReadFails
    | Mark
    | Write(next: Contents)
    | Close
    | Notice(id: nat)
    | Raise(id: nat)
    | Lock(who: Who)
    | Render
    | Reply(ok: bool)

  predicate InSync(s: State) {
    s.served == Publish(s.saved.rows, s.saved.aliases)
  }

  /** An apply has marked a write and not finished its trailing reload. */
  predicate Unfinished(s: State) {
    s.apply != Off && s.apply.wrote
  }

  predicate Start(s: State) {
    InSync(s) && !s.pending && s.holder == None && s.apply == Off && s.calls == map[] && s.raised == 0 && s.repairs == 0
  }

  function SetFlag(s: State, v: bool): State {
    s.(pending := v, raised := s.raised + if v && !s.pending then 1 else 0)
  }

  /** Whether a step can be taken. */
  predicate Enabled(s: State, step: Step) {
    match step
    case Begin => s.apply == Off
    case ReadFails => s.apply == Phases(false)
    case Mark => s.apply == Phases(false)
    case Write(_) => s.apply == Phases(true)
    case Close => s.apply.Phases?
    case Notice(id) => id !in s.calls && s.pending
    case Raise(id) => id !in s.calls
    case Lock(Applier) => s.holder == None && s.apply.Closing?
    case Lock(Caller(id)) => s.holder == None && id in s.calls && s.calls[id].Waiting?
    case Render => Reloads(s)
    case Reply(ok) => Reloads(s) && (ok ==> HasPublished(s))
  }

  /** The lock holder's reload request is under way. */
  predicate Reloads(s: State) {
    match s.holder
    case None => false
    case Some(Applier) => s.apply.Reloading?
    case Some(Caller(id)) => id in s.calls && s.calls[id].InFlight?
  }

  /** The firewall has rendered the saved config in answer to the request under way. */
  predicate HasPublished(s: State)
    requires Reloads(s)
  {
    match s.holder.value
    case Applier => s.apply.published
    case Caller(id) => s.calls[id].published
  }

  function Next(s: State, step: Step): State
    requires Enabled(s, step)
  {
    match step
    case Begin => s.(apply := Phases(false))
    // The apply's own read fails: it returns at once, and leaves the flag to the next caller.
    case ReadFails => s.(apply := Off)
    // markWrite: the flag goes up before the first write.
    case Mark => SetFlag(s, true).(apply := Phases(true))
    // A write call, committed or not.
    case Write(next) => s.(saved := next)
    // The end of apply: a reload is needed after a write attempt and while the flag is up.
    case Close => s.(apply := if s.apply.wrote || s.pending then Closing(s.apply.wrote) else Off)
    // Records sees the flag and asks for a repair.
    case Notice(id) => s.(calls := s.calls[id := Waiting(true)])
    // The startup check found unserved rows: it raises the flag and always reloads.
    case Raise(id) => SetFlag(s, true).(calls := s.calls[id := Waiting(false)])
    // The lock; under it a repair looks at the flag again and may find nothing to do.
    case Lock(Applier) => s.(holder := Some(Applier), apply := Reloading(s.apply.wrote, false))
    case Lock(Caller(id)) =>
      var repair := s.calls[id].repair;
      if repair && !s.pending then s.(calls := s.calls - {id})
      else s.(holder := Some(Caller(id)), calls := s.calls[id := InFlight(repair, false)])
    // The firewall renders what is saved at that moment.
    case Render =>
      var t := s.(served := Publish(s.saved.rows, s.saved.aliases));
      (match s.holder.value
       case Applier => t.(apply := t.apply.(published := true))
       case Caller(id) => t.(calls := t.calls[id := t.calls[id].(published := true)]))
    // The answer decides the flag, and the lock is released.
    case Reply(ok) =>
      var t := SetFlag(s, !ok).(holder := None);
      (match s.holder.value
       case Applier => t.(apply := Off)
       case Caller(id) =>
         t.(calls := t.calls - {id}, repairs := t.repairs + if ok && s.calls[id].repair then 1 else 0))
  }

  /** A run: every state follows from the one before by an enabled step. */
  ghost predicate Run(states: seq<State>, steps: seq<Step>) {
    && |states| == |steps| + 1 && Start(states[0])
    && forall i | 0 <= i < |steps| :: Enabled(states[i], steps[i]) && states[i + 1] == Next(states[i], steps[i])
  }

  /** What every step keeps. */
  ghost predicate Invariant(s: State) {
    && (s.pending || Unfinished(s) || InSync(s))
    // Whoever reloads holds the lock, and holds it for a reload.
    && (s.apply.Reloading? <==> s.holder == Some(Applier))
    && (forall id | id in s.calls :: s.calls[id].InFlight? <==> s.holder == Some(Caller(id)))
    && (s.holder.Some? ==> Reloads(s))
    // Nothing is written while the apply reloads; a caller's reload can only be overtaken by an apply.
    && (Reloads(s) && HasPublished(s) ==> InSync(s) || (s.holder != Some(Applier) && Unfinished(s)))
    // Only the lock holder lowers the flag, so a repair under way still has it up.
    && (forall id | id in s.calls && s.calls[id].InFlight? && s.calls[id].repair :: s.pending)
    && s.repairs + (if s.pending then 1 else 0) <= s.raised
  }

  lemma StartHolds(s: State)
    requires Start(s)
    ensures Invariant(s)
  {
  }

  lemma StepKeeps(s: State, step: Step)
    requires Invariant(s) && Enabled(s, step)
    ensures Invariant(Next(s, step))
  {
    match step
    case Render =>
    case Reply(ok) =>
    case Lock(Caller(id)) =>
    case _ =>
  }

  /**
   * At every point of every interleaving: the flag is up, or an apply that has marked a
   * write has yet to finish its trailing reload, or what is served is what is saved; and
   * successful repairs never outnumber the times the flag was raised.
   */
  lemma {:induction false} AlwaysCovered(states: seq<State>, steps: seq<Step>, n: nat)
    requires Run(states, steps) && n < |states|
    ensures Invariant(states[n])
    ensures states[n].pending || Unfinished(states[n]) || InSync(states[n])
    ensures states[n].repairs <= states[n].raised
  {
    if n == 0 {
      StartHolds(states[0]);
    } else {
      AlwaysCovered(states, steps, n - 1);
      StepKeeps(states[n - 1], steps[n - 1]);
    }
  }

  /**
   * How an apply ends: its first read failed; or it wrote nothing and found the flag down;
   * or its reload was answered, and the flag says how.
   */
  lemma ApplyEnds(s: State, step: Step)
    requires Enabled(s, step) && s.apply != Off && Next(s, step).apply == Off
    ensures
      || (step == ReadFails && !s.apply.wrote && Next(s, step).pending == s.pending)
      || (step == Close && !s.apply.wrote && !s.pending && !Next(s, step).pending)
      || (step.Reply? && s.apply.Reloading? && Next(s, step).pending == !step.ok)
  {
  }

  /** A reader asks for a repair while the flag is up; the startup check puts it up and asks for a reload. */
  lemma CallBegins(s: State, step: Step, id: nat)
    requires Enabled(s, step) && id !in s.calls && id in Next(s, step).calls
    ensures Next(s, step).pending
    ensures (step == Notice(id) && Next(s, step).calls[id] == Waiting(true))
         || (step == Raise(id) && Next(s, step).calls[id] == Waiting(false))
  {
  }

  /**
   * Every call ends with the answer to its reload, which decides the flag; only a repair may
   * find the flag down and end without one.
   */
  lemma CallEnds(s: State, step: Step, id: nat)
    requires Enabled(s, step) && id in s.calls && id !in Next(s, step).calls
    ensures
      || (step.Reply? && s.holder == Some(Caller(id)) && Next(s, step).pending == !step.ok)
      || (step == Lock(Caller(id)) && s.calls[id].repair && !s.pending && !Next(s, step).pending &&
        Next(s, step).served == s.served)
  {
  }

  /** The flag is down and what is served is not what is saved. */
  predicate Uncovered(s: State) {
    !s.pending && !InSync(s)
  }

  /** Where an apply stands when it has marked a write and its own reload has not published yet. */
  predicate Exposed(a: ApplyAt) {
    a != Off && a.wrote && !(a.Reloading? && a.published)
  }

  /**
   * Wherever else the apply stands, off, before its first write or past its own publishing,
   * the flag alone tells whether served may lag behind saved.
   */
  lemma FlagTells(states: seq<State>, steps: seq<Step>, n: nat)
    requires Run(states, steps) && n < |states| && !Exposed(states[n].apply)
    ensures !Uncovered(states[n])
  {
    AlwaysCovered(states, steps, n);
  }

  /**
   * The flag alone is not enough during an apply: a reader that repairs between the mark
   * and a later write clears it, and what that write changed is then unserved and unflagged,
   * at every place where the apply stands until it has published.
   */
  lemma FlagAloneFails(a: Contents, b: Contents, place: ApplyAt) returns (states: seq<State>, steps: seq<Step>)
    requires Publish(a.rows, a.aliases) != Publish(b.rows, b.aliases) && Exposed(place)
    ensures Run(states, steps) && |states| > 0
    ensures var s := states[|states| - 1]; s.apply == place && Uncovered(s)
  {
    hide Publish, Run;
    states, steps := Noticed(a);
    states, steps := Append(states, steps, Lock(Caller(0)));
    states, steps := Append(states, steps, Render);
    states, steps := Append(states, steps, Step.Write(b));
    states, steps := Append(states, steps, Reply(true));
    if !place.Phases? {
      states, steps := Append(states, steps, Close);
    }
    if place.Reloading? {
      states, steps := Append(states, steps, Lock(Applier));
    }
  }

  /** Some run has an uncovered state while its apply stands at this place. */
  ghost predicate Admits(place: ApplyAt) {
    exists states, steps, n :: UncoveredAt(states, steps, n, place)
  }

  ghost predicate UncoveredAt(states: seq<State>, steps: seq<Step>, n: nat, place: ApplyAt) {
    Run(states, steps) && n < |states| && states[n].apply == place && Uncovered(states[n])
  }

  /**
   * The places at which the flag alone does not tell: exactly those where the apply has
   * marked a write and not published.
   */
  lemma FlagFailsExactly(place: ApplyAt)
    ensures Admits(place) <==> Exposed(place)
  {
    hide Run, Publish;
    if Exposed(place) {
      var a, b := TwoContents();
      var states, steps := FlagAloneFails(a, b, place);
      var n: nat := |states| - 1;
      assert UncoveredAt(states, steps, n, place);
    }
    if states, steps, n :| UncoveredAt(states, steps, n, place) {
      if !Exposed(place) {
        FlagTells(states, steps, n);
      }
    }
  }

  /** Nothing saved and one row saved are served differently. */
  lemma TwoContents() returns (a: Contents, b: Contents)
    ensures Publish(a.rows, a.aliases) != Publish(b.rows, b.aliases)
  {
    var r := Row(0, "1", "a", "example.com", TYPE_A, "1", "", "", "", "", "1", "", false, []);
    a, b := Contents([], []), Contents([r], []);
    assert [r][..0] == [];
    assert Publish(b.rows, b.aliases) != [];
  }

  /** An apply has marked a write, and a reader has seen the flag. */
  lemma Noticed(a: Contents) returns (states: seq<State>, steps: seq<Step>)
    ensures Run(states, steps) && |states| > 0
    ensures states[|states| - 1] ==
      State(a, Publish(a.rows, a.aliases), true, None, Phases(true), map[0 := Waiting(true)], 1, 0)
  {
    hide Publish, Run;
    states, steps := [State(a, Publish(a.rows, a.aliases), false, None, Off, map[], 0, 0)], [];
    Nothing(states[0]);
    states, steps := Append(states, steps, Begin);
    states, steps := Append(states, steps, Mark);
    states, steps := Append(states, steps, Notice(0));
  }

  lemma Nothing(s: State)
    requires Start(s)
    ensures Run([s], [])
  {
  }

  /** One more step of a run. */
  lemma Append(states: seq<State>, steps: seq<Step>, step: Step) returns (states': seq<State>, steps': seq<Step>)
    requires |states| > 0 && Run(states, steps) && Enabled(states[|states| - 1], step)
    ensures Run(states', steps') && |states'| == |states| + 1
    ensures states'[|states'| - 1] == Next(states[|states| - 1], step)
  {
    hide Enabled, Next;
    states', steps' := states + [Next(states[|states| - 1], step)], steps + [step];
  }
}
