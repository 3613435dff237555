/**
 * The in-page message bus: job messages from the server are routed into the
 * job store and then handed to every registered listener, in registration
 * order. A listener that throws is skipped over; the others still run.
 *
 * Listeners are named by opaque ids. What a listener does is outside the
 * model; each invocation is recorded, with whether it threw (given as the
 * `throwing` set of the broadcast).
 */
module MessageBus {
  import opened Wrappers
  import opened JsMap
  import opened JobStore

  type ListenerId = nat

  /** A message as it arrives: an absent or empty id or type makes it ignored. */
  datatype Message = Message(
    jobId: Option<string>,
    kind: string,
    phase: Option<string>,
    message: Option<string>,
    progress: Option<int>,
    result: Option<string>)

  datatype Invocation = Invocation(listener: ListenerId, message: Message, threw: bool)

  /** JavaScript's `!x` on an optional string: absent or empty. */
  predicate Falsy(s: Option<string>) {
    s.None? || s.value == ""
  }

  /** Whether `broadcastMessage` goes past its guard. */
  predicate Accepted(m: Message) {
    !Falsy(m.jobId) && m.kind != ""
  }

  /** The update `broadcastMessage` builds for a phase, log or completion message at `now`. */
  function UpdateOf(m: Message, kind: UpdateKind, now: int): JobUpdate {
    JobUpdate(kind, m.phase, m.message, m.progress, m.result, Some(now))
  }

  /** The job store after routing `m` at `now`. */
  function Route(q: JobQueue, m: Message, now: int): (r: JobQueue)
    requires q.Valid()
    ensures r.Valid()
    ensures !Accepted(m) ==> r == q
    ensures Accepted(m) && m.kind == "error" ==>
              r == SetJobError(q, m.jobId.value, if Falsy(m.message) then "Unknown error" else m.message.value)
    ensures Accepted(m) && m.kind == "cancelled" ==> r == Dequeue(q, m.jobId.value)
    ensures m.kind !in {"error", "cancelled", "phase", "log", "complete"} ==> r == q
  {
    if !Accepted(m) then q
    else
      var id := m.jobId.value;
      if m.kind == "error" then SetJobError(q, id, if Falsy(m.message) then "Unknown error" else m.message.value)
      else if m.kind == "cancelled" then Dequeue(q, id)
      else if m.kind == "phase" then AddUpdate(q, id, UpdateOf(m, PhaseUpdate, now))
      else if m.kind == "log" then AddUpdate(q, id, UpdateOf(m, LogUpdate, now))
      else if m.kind == "complete" then CompleteJob(AddUpdate(q, id, UpdateOf(m, CompleteUpdate, now)), id)
      else q
  }

  /**
   * A phase or log message for a known job appends its update and marks the
   * job running, bumping the version once; when the update repeats a recent
   * one, nothing changes at all. The job keeps its place in the map.
   */
  lemma {:induction false} ProgressAppends(q: JobQueue, m: Message, now: int)
    requires q.Valid() && Accepted(m) && (m.kind == "phase" || m.kind == "log") && m.jobId.value in q.jobs.entries
    ensures var id := m.jobId.value;
            var u := UpdateOf(m, if m.kind == "phase" then PhaseUpdate else LogUpdate, now);
            var job := q.jobs.entries[id];
            var r := Route(q, m, now);
            && (IsDuplicate(job.updates, u) ==> r == q)
            && (!IsDuplicate(job.updates, u) ==>
                  && r.jobs.keys == q.jobs.keys && r.version == q.version + 1
                  && r.jobs.entries == q.jobs.entries[id := job.(status := Running, updates := job.updates + [u])])
  {
  }

  /**
   * A completion message for a known job always leaves it completed: its
   * update is appended unless it repeats a recent one, and the job is then
   * marked complete. The version moves by one per store change.
   */
  lemma {:induction false} CompletionCompletes(q: JobQueue, m: Message, now: int)
    requires q.Valid() && Accepted(m) && m.kind == "complete" && m.jobId.value in q.jobs.entries
    ensures var id := m.jobId.value;
            var u := UpdateOf(m, CompleteUpdate, now);
            var job := q.jobs.entries[id];
            var dup := IsDuplicate(job.updates, u);
            var r := Route(q, m, now);
            && r.jobs.keys == q.jobs.keys
            && r.jobs.entries == q.jobs.entries[id := job.(status := Completed, updates := if dup then job.updates else job.updates + [u])]
            && r.version == q.version + (if dup then 1 else 2)
  {
  }

  /** An error message for a known job leaves it failed with the message's text, or "Unknown error". */
  lemma {:induction false} ErrorFails(q: JobQueue, m: Message, now: int)
    requires q.Valid() && Accepted(m) && m.kind == "error" && m.jobId.value in q.jobs.entries
    ensures var job := Route(q, m, now).jobs.entries[m.jobId.value];
            job.status == Failed && job.error == Some(if Falsy(m.message) then "Unknown error" else m.message.value)
            && job.updates == q.jobs.entries[m.jobId.value].updates
  {
  }

  /** A cancellation removes the job, known or not. */
  lemma {:induction false} CancelRemoves(q: JobQueue, m: Message, now: int)
    requires q.Valid() && Accepted(m) && m.kind == "cancelled"
    ensures m.jobId.value !in Route(q, m, now).jobs.entries
  {
  }

  /** Messages only ever touch the job they name. */
  lemma {:induction false} RouteTouchesOneJob(q: JobQueue, m: Message, now: int, other: string)
    requires q.Valid() && (Falsy(m.jobId) || other != m.jobId.value)
    ensures var r := Route(q, m, now);
            (other in r.jobs.entries <==> other in q.jobs.entries)
            && (other in q.jobs.entries ==> r.jobs.entries[other] == q.jobs.entries[other])
  {
  }

  /** The listener registry and what the listeners were handed. */
  class Bus {
    /** The registered listeners, in registration order (a JavaScript `Set`). */
    var listeners: seq<ListenerId>
    var invocations: seq<Invocation>
    const store: Store

    ghost predicate Valid()
      reads this, store
    {
      Distinct(listeners) && store.Valid()
    }

    constructor (store: Store)
      requires store.Valid()
      ensures Valid() && this.store == store && listeners == [] && invocations == []
    {
      this.store := store;
      listeners := [];
      invocations := [];
    }

    /** `addMessageListener`: registering twice keeps the first place. */
    method AddListener(l: ListenerId)
      requires Valid()
      modifies this
      ensures Valid()
      ensures l in old(listeners) ==> listeners == old(listeners)
      ensures l !in old(listeners) ==> listeners == old(listeners) + [l]
      ensures invocations == old(invocations)
    {
      if l !in listeners {
        listeners := listeners + [l];
      }
    }

    /** The unsubscribe function `addMessageListener` returns. */
    method RemoveListener(l: ListenerId)
      requires Valid()
      modifies this
      ensures Valid()
      ensures listeners == Without(old(listeners), l)
      ensures invocations == old(invocations)
    {
      WithoutPreserves(listeners, l);
      listeners := Without(listeners, l);
    }

    /**
     * `broadcastMessage`: an accepted message is routed into the store and
     * then handed to every listener in order, whether or not some throw; an
     * ignored one reaches nobody.
     */
    method Broadcast(m: Message, now: int, throwing: set<ListenerId>)
      requires Valid()
      modifies this, store
      ensures Valid()
      ensures listeners == old(listeners)
      ensures store.State() == Route(old(store.State()), m, now)
      ensures !Accepted(m) ==> invocations == old(invocations)
      ensures Accepted(m) ==> invocations == old(invocations) + Calls(listeners, m, throwing)
    {
      if !Accepted(m) {
        return;
      }
      var id := m.jobId.value;
      if m.kind == "error" {
        store.SetError(id, if Falsy(m.message) then "Unknown error" else m.message.value);
      } else if m.kind == "cancelled" {
        store.DequeueJob(id);
      } else if m.kind == "phase" {
        store.AddJobUpdate(id, UpdateOf(m, PhaseUpdate, now));
      } else if m.kind == "log" {
        store.AddJobUpdate(id, UpdateOf(m, LogUpdate, now));
      } else if m.kind == "complete" {
        store.AddJobUpdate(id, UpdateOf(m, CompleteUpdate, now));
        store.Complete(id);
      }
      var i := 0;
      while i < |listeners|
        invariant 0 <= i <= |listeners|
        invariant invocations == old(invocations) + Calls(listeners[..i], m, throwing)
        modifies this
        invariant listeners == old(listeners)
      {
        CallsSnoc(listeners, i, m, throwing);
        invocations := invocations + [Invocation(listeners[i], m, listeners[i] in throwing)];
        i := i + 1;
      }
      assert listeners[..i] == listeners;
    }
  }

  /** The invocations of `listeners` with `m`, in order. */
  function Calls(listeners: seq<ListenerId>, m: Message, throwing: set<ListenerId>): (r: seq<Invocation>)
    ensures |r| == |listeners|
    ensures forall i | 0 <= i < |r| :: r[i] == Invocation(listeners[i], m, listeners[i] in throwing)
  {
    seq(|listeners|, i requires 0 <= i < |listeners| => Invocation(listeners[i], m, listeners[i] in throwing))
  }

  lemma CallsSnoc(listeners: seq<ListenerId>, i: nat, m: Message, throwing: set<ListenerId>)
    requires i < |listeners|
    ensures Calls(listeners[..i + 1], m, throwing) == Calls(listeners[..i], m, throwing) + [Invocation(listeners[i], m, listeners[i] in throwing)]
  {
  }
}
