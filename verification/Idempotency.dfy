/** The idempotency-key lock: all the requests that carry one key, interleaved at every
    await, over the one record that a unique index allows them. */
module Idempotency {

  datatype Record<B> = Absent | InFlight | Done(status: int, body: B)

  datatype Phase<B> =
    | Arrived
    | Cleared                          // the lookup found no record
    | Conflict                         // answered 409
    | Replayed(status: int, body: B)   // answered from the record
    | Errored                          // the lookup or the insertion threw; the handler was not called
    | Running
    | Responded(status: int, body: B)  // answered; the record is not written yet
    | Finished(status: int, body: B)   // answered; the write was made or failed

  datatype World<B> = World(record: Record<B>, requests: seq<Phase<B>>)

  datatype Event<B> =
    | Arrive
    | Look(id: nat, reached: bool)
    | Create(id: nat, reached: bool)
    | Respond(id: nat, status: int, body: B)
    | Write(id: nat, reached: bool)

  /** Responses below 500 are kept; any other releases the key. */
  predicate Kept(status: int) {
    200 <= status < 500
  }

  function Move<B>(w: World<B>, id: nat, p: Phase<B>): World<B>
    requires id < |w.requests|
  {
    w.(requests := w.requests[id := p])
  }

  function Step<B>(w: World<B>, e: Event<B>): World<B> {
    match e
    case Arrive => w.(requests := w.requests + [Arrived])
    case Look(id, reached) =>
      if id < |w.requests| && w.requests[id].Arrived? then
        if !reached then Move(w, id, Errored)
        else Move(w, id, match w.record
                         case Absent => Cleared
                         case InFlight => Conflict
                         case Done(status, body) => Replayed(status, body))
      else w
    case Create(id, reached) =>
      if id < |w.requests| && w.requests[id].Cleared? then
        if !reached then Move(w, id, Errored)
        else if !w.record.Absent? then Move(w, id, Conflict)
        else Move(w, id, Running).(record := InFlight)
      else w
    case Respond(id, status, body) =>
      if id < |w.requests| && w.requests[id].Running? then Move(w, id, Responded(status, body)) else w
    case Write(id, reached) =>
      if id < |w.requests| && w.requests[id].Responded? then
        var p := w.requests[id];
        var w' := Move(w, id, Finished(p.status, p.body));
        if !reached then w'
        else if !Kept(p.status) then w'.(record := Absent)
        else if w.record.Absent? then w'
        else w'.(record := Done(p.status, p.body))
      else w
  }

  function Run<B>(es: seq<Event<B>>): World<B> {
    if es == [] then World(Absent, []) else Step(Run(es[..|es| - 1]), es[|es| - 1])
  }

  // ---- What holds at every step ----

  /** Its handler was started. */
  predicate Started<B>(p: Phase<B>) {
    p.Running? || p.Responded? || p.Finished?
  }

  /** Between taking the key and writing the outcome. */
  predicate Holds<B>(p: Phase<B>) {
    p.Running? || p.Responded?
  }

  /** Answered by its handler with a response that is kept. */
  predicate Settled<B>(p: Phase<B>) {
    (p.Responded? || p.Finished?) && Kept(p.status)
  }

  ghost predicate OneHolder<B>(w: World<B>) {
    forall i, j | 0 <= i < |w.requests| && 0 <= j < |w.requests| && Holds(w.requests[i]) && Holds(w.requests[j]) :: i == j
  }

  ghost predicate SettledAlone<B>(w: World<B>) {
    forall i, j | 0 <= i < |w.requests| && 0 <= j < |w.requests| && Settled(w.requests[i])
                  && (Holds(w.requests[j]) || Settled(w.requests[j])) :: i == j
  }

  ghost predicate RecordFits<B>(w: World<B>) {
    && (w.record.Absent? ==> forall i | 0 <= i < |w.requests| :: !Holds(w.requests[i]) && !Settled(w.requests[i]))
    && (w.record.Done? ==> forall i | 0 <= i < |w.requests| ::
          !Holds(w.requests[i])
          && (Settled(w.requests[i]) ==> w.requests[i] == Finished(w.record.status, w.record.body)))
    && (w.record.Done? ==> Kept(w.record.status) && Finished(w.record.status, w.record.body) in w.requests)
  }

  ghost predicate ReplaysFit<B>(w: World<B>) {
    forall i | 0 <= i < |w.requests| && w.requests[i].Replayed? ::
      w.record == Done(w.requests[i].status, w.requests[i].body)
  }

  ghost predicate Inv<B>(w: World<B>) {
    OneHolder(w) && SettledAlone(w) && RecordFits(w) && ReplaysFit(w)
  }

  lemma CreateKeeps<B>(w: World<B>, e: Event<B>)
    requires Inv(w) && e.Create?
    ensures Inv(Step(w, e))
  {
    if w.record.Done? && e.id < |w.requests| && w.requests[e.id].Cleared? {
      DoneStays(w, Step(w, e), e.id);
    }
  }

  lemma LookKeeps<B>(w: World<B>, e: Event<B>)
    requires Inv(w) && e.Look?
    ensures Inv(Step(w, e))
  {
    if w.record.Done? && e.id < |w.requests| && w.requests[e.id].Arrived? {
      DoneStays(w, Step(w, e), e.id);
    }
  }

  /** A kept response stays in the list of requests when another request moves. */
  lemma DoneStays<B>(w: World<B>, w': World<B>, id: nat)
    requires id < |w.requests| == |w'.requests| && w.record.Done? && !w.requests[id].Finished?
    requires Finished(w.record.status, w.record.body) in w.requests
    requires forall i | 0 <= i < |w.requests| && i != id :: w'.requests[i] == w.requests[i]
    ensures Finished(w.record.status, w.record.body) in w'.requests
  {
    var k :| 0 <= k < |w.requests| && w.requests[k] == Finished(w.record.status, w.record.body);
    assert w'.requests[k] == w.requests[k];
  }

  lemma RespondKeeps<B>(w: World<B>, e: Event<B>)
    requires Inv(w) && e.Respond?
    ensures Inv(Step(w, e))
  {
  }

  lemma WriteKeeps<B>(w: World<B>, e: Event<B>)
    requires Inv(w) && e.Write?
    ensures Inv(Step(w, e))
  {
    if e.id < |w.requests| && w.requests[e.id].Responded? {
      var p := w.requests[e.id];
      assert Holds(p);
      var w' := Step(w, e);
      assert w'.requests[e.id] == Finished(p.status, p.body);
    }
  }

  lemma StepKeeps<B>(w: World<B>, e: Event<B>)
    requires Inv(w)
    ensures Inv(Step(w, e))
  {
    match e
    case Arrive =>
    case Look(_, _) => LookKeeps(w, e);
    case Create(_, _) => CreateKeeps(w, e);
    case Respond(_, _, _) => RespondKeeps(w, e);
    case Write(_, _) => WriteKeeps(w, e);
  }

  lemma {:induction false} RunKeeps<B>(es: seq<Event<B>>)
    ensures Inv(Run(es))
  {
    if es != [] {
      RunKeeps(es[..|es| - 1]);
      StepKeeps(Run(es[..|es| - 1]), es[|es| - 1]);
    }
  }

  /** In every interleaving at most one handler runs at a time. */
  lemma OneHandlerAtATime<B>(es: seq<Event<B>>, i: nat, j: nat)
    requires i < |Run(es).requests| && j < |Run(es).requests|
    requires Run(es).requests[i].Running? && Run(es).requests[j].Running?
    ensures i == j
  {
    RunKeeps(es);
  }

  /** Every replay, and every other kept response, is the one kept response. */
  lemma ReplayIsStored<B>(es: seq<Event<B>>, i: nat, j: nat)
    requires i < |Run(es).requests| && j < |Run(es).requests|
    requires Settled(Run(es).requests[i])
    ensures Settled(Run(es).requests[j]) ==> i == j
    ensures var r := Run(es).requests;
            r[j].Replayed? ==> (r[j].status, r[j].body) == (r[i].status, r[i].body)
  {
    RunKeeps(es);
  }

  /** A replay has an original: a handler that ran and gave that response. */
  lemma ReplayHasOriginal<B>(es: seq<Event<B>>, j: nat)
    requires j < |Run(es).requests| && Run(es).requests[j].Replayed?
    ensures var r := Run(es).requests;
            Kept(r[j].status) && Finished(r[j].status, r[j].body) in r
  {
    RunKeeps(es);
  }

  lemma StartsFrom<B>(w: World<B>, e: Event<B>, j: nat)
    requires Inv(w) && j < |Step(w, e).requests| && Started(Step(w, e).requests[j])
    ensures (j < |w.requests| && Started(w.requests[j])) || w.record.Absent?
  {
  }

  lemma SettledStays<B>(w: World<B>, e: Event<B>, i: nat)
    requires i < |w.requests| && Settled(w.requests[i])
    ensures i < |Step(w, e).requests| && Settled(Step(w, e).requests[i])
  {
  }

  /** After a handler has answered below 500 no handler ever starts again: whatever follows,
      the requests whose handler was started are those of that moment. */
  lemma {:induction false} NeverAgain<B>(es: seq<Event<B>>, more: seq<Event<B>>, i: nat, j: nat)
    requires i < |Run(es).requests| && Settled(Run(es).requests[i])
    requires j < |Run(es + more).requests| && Started(Run(es + more).requests[j])
    ensures j < |Run(es).requests| && Started(Run(es).requests[j])
  {
    if more == [] {
      assert es + more == es;
    } else {
      var n := |more| - 1;
      assert (es + more)[..|es + more| - 1] == es + more[..n];
      assert (es + more)[|es + more| - 1] == more[n];
      RunKeeps(es + more[..n]);
      StillSettled(es, more[..n], i);
      StartsFrom(Run(es + more[..n]), more[n], j);
      NeverAgain(es, more[..n], i, j);
    }
  }

  lemma {:induction false} StillSettled<B>(es: seq<Event<B>>, more: seq<Event<B>>, i: nat)
    requires i < |Run(es).requests| && Settled(Run(es).requests[i])
    ensures i < |Run(es + more).requests| && Settled(Run(es + more).requests[i])
  {
    if more == [] {
      assert es + more == es;
    } else {
      var n := |more| - 1;
      assert (es + more)[..|es + more| - 1] == es + more[..n];
      assert (es + more)[|es + more| - 1] == more[n];
      StillSettled(es, more[..n], i);
      SettledStays(Run(es + more[..n]), more[n], i);
    }
  }

  /** A key is free again exactly when every handler that took it has answered outside
      200..499 and the last release reached the store. */
  lemma FreeAfterRelease<B>(es: seq<Event<B>>, id: nat)
    requires id < |Run(es).requests| && Run(es).requests[id].Responded?
    ensures var p := Run(es).requests[id];
            Run(es + [Write(id, true)]).record == if Kept(p.status) then Done(p.status, p.body) else Absent
    ensures Run(es + [Write(id, false)]).record == InFlight
  {
    RunKeeps(es);
    assert Holds(Run(es).requests[id]);
    assert (es + [Write(id, true)])[..|es|] == es && (es + [Write(id, false)])[..|es|] == es;
  }

  /** A request that nobody disturbs and whose store answers: its handler runs exactly when the
      key is free; a key in use is a conflict, a kept answer is replayed. */
  lemma AloneIsServed<B>(w: World<B>)
    ensures var id := |w.requests|;
            var w' := Step(Step(Step(w, Arrive), Look(id, true)), Create(id, true));
            && w'.requests[..id] == w.requests && |w'.requests| == id + 1
            && match w.record
               case Absent => w'.requests[id].Running? && w'.record.InFlight?
               case InFlight => w'.requests[id].Conflict? && w'.record == w.record
               case Done(status, body) => w'.requests[id] == Replayed(status, body) && w'.record == w.record
  {
    var id := |w.requests|;
    var w1 := Step(w, Arrive);
    assert w1.requests[id] == Arrived;
    var w2 := Step(w1, Look(id, true));
    assert w2.requests[..id] == w.requests;
  }

  /** And the answer of its handler is recorded exactly when it is to be kept. */
  lemma AnswerIsRecorded<B>(w: World<B>, id: nat, status: int, body: B)
    requires id < |w.requests| && w.requests[id].Running? && w.record.InFlight?
    ensures var w' := Step(Step(w, Respond(id, status, body)), Write(id, true));
            && w'.record == (if 200 <= status < 500 then Done(status, body) else Absent)
            && w'.requests == w.requests[id := Finished(status, body)]
  {
    var w1 := Step(w, Respond(id, status, body));
    assert w1.requests[id] == Responded(status, body);
  }

  // ---- The same steps on the store ----

  /** The record and the requests as the middleware writes them, one method for each
      stretch between two awaits. */
  class Middleware<B> {
    var record: Record<B>
    var requests: seq<Phase<B>>

    ghost function State(): World<B>
      reads this
    {
      World(record, requests)
    }

    constructor ()
      ensures State() == Run([])
    {
      record, requests := Absent, [];
    }

    method NewRequest() returns (id: nat)
      modifies this
      ensures id == |old(requests)| && State() == Step(old(State()), Arrive)
    {
      id := |requests|;
      requests := requests + [Arrived];
    }

    method FindRecord(id: nat, reached: bool)
      requires id < |requests| && requests[id].Arrived?
      modifies this`requests
      ensures State() == Step(old(State()), Look(id, reached))
    {
      if !reached {
        requests := requests[id := Errored];
        return;
      }
      if !record.Absent? {
        if record.InFlight? {
          requests := requests[id := Conflict];
          return;
        }
        requests := requests[id := Replayed(record.status, record.body)];
        return;
      }
      requests := requests[id := Cleared];
    }

    method AcquireLock(id: nat, reached: bool) returns (next: bool)
      requires id < |requests| && requests[id].Cleared?
      modifies this
      ensures State() == Step(old(State()), Create(id, reached))
      ensures next <==> reached && old(record).Absent?
    {
      if !reached {
        requests := requests[id := Errored];
        return false;
      }
      if !record.Absent? {
        requests := requests[id := Conflict];
        return false;
      }
      record := InFlight;
      requests := requests[id := Running];
      return true;
    }

    method SendJson(id: nat, status: int, body: B)
      requires id < |requests| && requests[id].Running?
      modifies this`requests
      ensures State() == Step(old(State()), Respond(id, status, body))
    {
      requests := requests[id := Responded(status, body)];
    }

    method SaveOrRelease(id: nat, reached: bool)
      requires id < |requests| && requests[id].Responded?
      modifies this
      ensures State() == Step(old(State()), Write(id, reached))
    {
      var answer := requests[id];
      requests := requests[id := Finished(answer.status, answer.body)];
      if reached {
        if 200 <= answer.status && answer.status < 500 {
          if !record.Absent? {
            record := Done(answer.status, answer.body);
          }
        } else {
          record := Absent;
        }
      }
    }
  }
}
