/** The durable layer: every mutating call is capture, step, commit, or roll back. The store is a
    cell whose commit may succeed, fail before changing it, or fail after changing it. */
module Durable {
  import opened Text
  import opened Core
  import opened Service
  import opened Moves
  import opened Snapshots
  import opened History

  datatype Fate = Healthy | FailsBefore | FailsAfter

  datatype Commitment = Commitment(cell: Option<Snapshot>, ok: bool)

  ghost function Commit(env: Env, cell: Option<Snapshot>, snap: Snapshot, fate: Fate): Commitment
  {
    if !Valid(env, snap) then Commitment(cell, false)
    else
      match fate
      case Healthy => Commitment(Some(snap), true)
      case FailsBefore => Commitment(cell, false)
      case FailsAfter => Commitment(Some(snap), false)
  }

  /** When the snapshot before, the step, the snapshot after and a rollback happen. */
  datatype Clock = Clock(before: Time, now: Time, after: Time, restored: Time)

  predicate Ticks(c: Clock)
  {
    0 < c.before <= c.now <= c.after <= c.restored
  }

  datatype Served = Served(mem: State, cell: Option<Snapshot>, response: Response)

  /** A failed commit: restore memory from the snapshot taken before, then commit that snapshot. */
  ghost function RollBack(env: Env, mem: State, cell: Option<Snapshot>, before: Snapshot, restored: Time, fate: Fate): Served
  {
    if !Restorable(env, before) then Served(mem, cell, Rejected(RollbackFailed))
    else
      var c := Commit(env, cell, before, fate);
      Served(Restore(before, restored), c.cell, Rejected(if c.ok then PreviousStateRestored else PersistentRollbackFailed))
  }

  /** The commit of an accepted step. */
  ghost function Finish(env: Env, cell: Option<Snapshot>, before: Snapshot, o: Outcome, c: Clock, first: Fate, second: Fate): Served
  {
    var committed := Commit(env, cell, Capture(o.state, c.after), first);
    if committed.ok then Served(o.state, committed.cell, o.response)
    else RollBack(env, o.state, committed.cell, before, c.restored, second)
  }

  ghost function Serve(env: Env, mem: State, cell: Option<Snapshot>, call: Call, c: Clock, entropy: Option<Entropy>,
                       first: Fate, second: Fate): Served
  {
    var o := Step(env, mem, call, c.now, entropy);
    if call.request.GetModel? || o.response.Rejected? then Served(o.state, cell, o.response)
    else Finish(env, cell, Capture(mem, c.before), o, c, first, second)
  }

  // ----- atomicity

  /** What a caller may conclude from the answer. `o` is the step itself, without durability. */
  ghost predicate Atomic(env: Env, mem: State, cell: Option<Snapshot>, o: Outcome, c: Clock, r: Served)
  {
    var before, after := Capture(mem, c.before), Capture(o.state, c.after);
    match r.response
    case Rejected(fault) =>
      if fault == PreviousStateRestored then
        r.mem == Restore(before, c.restored) && r.cell == Some(before)
      else
        && fault == PersistentRollbackFailed
        && r.mem == Restore(before, c.restored) && (r.cell == cell || r.cell == Some(before) || (r.cell == Some(after) && Wf(env, o.state)))
    case _ => r.mem == o.state && r.response == o.response && r.cell == Some(after) && Wf(env, o.state)
  }

  /** An acknowledged step is in memory and in the store; "previous state restored" means both are
      the state before; after a double failure memory is the state before, and the store is one of
      the three states involved. The rollback of memory itself never fails. */
  lemma FinishIsAtomic(env: Env, mem: State, cell: Option<Snapshot>, o: Outcome, c: Clock, first: Fate, second: Fate)
    requires Wf(env, mem) && TablesOk(env, o.state) && !o.response.Rejected?
    ensures Atomic(env, mem, cell, o, c, Finish(env, cell, Capture(mem, c.before), o, c, first, second))
  {
    CaptureRestorable(env, mem, c.before);
    CaptureValid(env, o.state, c.after);
  }

  /** A call that commits nothing leaves the round alone, so memory stays well formed. */
  lemma UncommittedStaysWf(env: Env, tr: Transition)
    requires Legal(env, tr) && tr.event.Rpc? && (tr.event.response.Rejected? || tr.event.request.GetModel?)
    requires Wf(env, tr.before) && TablesOk(env, tr.after)
    ensures Wf(env, tr.after)
  {
    assert RoundMove(env, tr.before, tr.after, tr.event.request, tr.event.response, tr.event.now);
  }
}
