/**
 * Many requests at once over one negative cache: each is assembled, sent, and after a rejection of its
 * cache points marks the model, is assembled again without them and sent once more. The steps of different
 * requests interleave in any order.
 */
module CacheProtocol {
  import opened Prelude
  import opened Json
  import opened CacheAssembly
  import opened CacheSupport

  /** What a request asks for. */
  datatype Job = Job(model: string, policy: Policy, args: Args)

  /** The normalised model of a request, and its arguments with caching allowed or forced off. */
  datatype Env = Env(model: nat -> string, assemble: (nat, bool) -> Args)

  ghost predicate StripsWhenOff(env: Env) { forall id :: CountArgs(env.assemble(id, true)) == 0 }

  function EnvOf(jobs: nat -> Job): Env {
    Env((id: nat) => NormalizeForMatch(jobs(id).model),
        (id: nat, off: bool) => Decorate(jobs(id).policy, jobs(id).args, off))
  }

  /** Requests that come without cache points have none when caching is off. */
  lemma {:induction false} JobsStripWhenOff(jobs: nat -> Job)
    requires forall id :: CountArgs(jobs(id).args) == 0
    ensures StripsWhenOff(EnvOf(jobs))
  {
    forall id ensures CountArgs(EnvOf(jobs).assemble(id, true)) == 0 {
      OffTouchesNothing(jobs(id).policy, jobs(id).args);
    }
  }

  type Answer = Reply<Json>

  /** Where a request stands, with what it has assembled. */
  datatype Phase =
    | New
    | Assembled(args: Args)
    | Rejected
    | Marked
    | Reassembled(args: Args)
    | Done(result: Result<Json, SendFailure>)

  /** One exchange with the service. */
  datatype Exchange = Exchange(id: nat, args: Args, reply: Answer)

  datatype System = System(unsupported: set<string>, phases: map<nat, Phase>, sent: seq<Exchange>)

  const START := System({}, map[], [])

  datatype Step =
    | Assemble(id: nat)
    | Send(id: nat, reply: Answer)
    | Mark(id: nat)
    | Reassemble(id: nat)
    | Resend(id: nat, reply: Answer)

  function PhaseOf(s: System, id: nat): Phase { if id in s.phases then s.phases[id] else New }

  function Enter(s: System, id: nat, phase: Phase): System { s.(phases := s.phases[id := phase]) }

  function Record(s: System, x: Exchange): System { s.(sent := s.sent + [x]) }

  /** Cache points were sent, and the service refused them. */
  predicate Rejection(x: Exchange) { CountArgs(x.args) > 0 && RejectsPoints(x.reply) }

  /** One step; a step whose request is not in the phase for it does nothing. */
  function Take(env: Env, s: System, step: Step): System {
    match step
    case Assemble(id) =>
      if PhaseOf(s, id).New? then Enter(s, id, Assembled(env.assemble(id, env.model(id) in s.unsupported))) else s
    case Send(id, reply) =>
      if PhaseOf(s, id).Assembled? then
        var x := Exchange(id, PhaseOf(s, id).args, reply);
        Enter(Record(s, x), id, if Rejection(x) then Rejected else Done(ResultOf(reply)))
      else s
    case Mark(id) =>
      if PhaseOf(s, id).Rejected? then Enter(s.(unsupported := s.unsupported + {env.model(id)}), id, Marked) else s
    case Reassemble(id) =>
      if PhaseOf(s, id).Marked? then Enter(s, id, Reassembled(env.assemble(id, true))) else s
    case Resend(id, reply) =>
      if PhaseOf(s, id).Reassembled? then
        Enter(Record(s, Exchange(id, PhaseOf(s, id).args, reply)), id, Done(ResultOf(reply)))
      else s
  }

  function Execute(env: Env, s: System, steps: seq<Step>): System {
    if steps == [] then s else Take(env, Execute(env, s, steps[..|steps| - 1]), steps[|steps| - 1])
  }

  // ---- what every step keeps ----

  function SendsOf(sent: seq<Exchange>, id: nat): seq<Exchange> {
    FlatMap((x: Exchange) => if x.id == id then [x] else [], sent)
  }

  predicate RejectedFor(env: Env, sent: seq<Exchange>, model: string) {
    exists x <- sent :: env.model(x.id) == model && Rejection(x)
  }

  /** What a request has sent by the time it stands in its phase. */
  predicate Consistent(phase: Phase, sends: seq<Exchange>) {
    match phase
    case New => sends == []
    case Assembled(_) => sends == []
    case Rejected => |sends| == 1 && Rejection(sends[0])
    case Marked => |sends| == 1 && Rejection(sends[0])
    case Reassembled(args) => |sends| == 1 && Rejection(sends[0]) && CountArgs(args) == 0
    case Done(result) =>
      || (|sends| == 1 && !Rejection(sends[0]) && result == ResultOf(sends[0].reply))
      || (|sends| == 2 && Rejection(sends[0]) && CountArgs(sends[1].args) == 0 && result == ResultOf(sends[1].reply))
  }

  ghost predicate Inv(env: Env, s: System) {
    && (forall id :: Consistent(PhaseOf(s, id), SendsOf(s.sent, id)))
    && (forall m <- s.unsupported :: RejectedFor(env, s.sent, m))
  }

  lemma {:induction false} SendsOfMore(sent: seq<Exchange>, x: Exchange, id: nat)
    ensures SendsOf(sent + [x], id) == if x.id == id then SendsOf(sent, id) + [x] else SendsOf(sent, id)
  {
    FlatMapOne((y: Exchange) => if y.id == id then [y] else [], sent, x);
  }

  lemma {:induction false} RejectedForMore(env: Env, sent: seq<Exchange>, x: Exchange, model: string)
    requires RejectedFor(env, sent, model)
    ensures RejectedFor(env, sent + [x], model)
  {
    var y :| y in sent && env.model(y.id) == model && Rejection(y);
    assert y in sent + [x];
  }

  /** An exchange is recorded, and its request moves on. */
  lemma {:induction false} RecordKeeps(env: Env, s: System, x: Exchange, phase: Phase)
    requires Inv(env, s) && Consistent(phase, SendsOf(s.sent, x.id) + [x])
    ensures Inv(env, Enter(Record(s, x), x.id, phase))
  {
    var t := Enter(Record(s, x), x.id, phase);
    forall id ensures Consistent(PhaseOf(t, id), SendsOf(t.sent, id)) {
      SendsOfMore(s.sent, x, id);
    }
    forall m | m in t.unsupported ensures RejectedFor(env, t.sent, m) {
      RejectedForMore(env, s.sent, x, m);
    }
  }

  /** A model is marked on the strength of the rejection its request has met. */
  lemma {:induction false} MarkKeeps(env: Env, s: System, id: nat)
    requires Inv(env, s) && PhaseOf(s, id).Rejected?
    ensures Inv(env, Take(env, s, Mark(id)))
  {
    var t := Take(env, s, Mark(id));
    var x := SendsOf(s.sent, id)[0];
    assert Consistent(PhaseOf(s, id), SendsOf(s.sent, id));
    SendsAreSent(s.sent, id);
    assert RejectedFor(env, t.sent, env.model(id));
    forall other ensures Consistent(PhaseOf(t, other), SendsOf(t.sent, other)) {
      assert Consistent(PhaseOf(s, other), SendsOf(s.sent, other));
    }
  }

  lemma {:induction false} SendsAreSent(sent: seq<Exchange>, id: nat)
    ensures forall x <- SendsOf(sent, id) :: x in sent && x.id == id
  {
    if sent != [] {
      SendsAreSent(sent[..|sent| - 1], id);
    }
  }

  lemma {:induction false} TakeKeeps(env: Env, s: System, step: Step)
    requires StripsWhenOff(env) && Inv(env, s)
    ensures Inv(env, Take(env, s, step))
  {
    var id, t := step.id, Take(env, s, step);
    assert Consistent(PhaseOf(s, id), SendsOf(s.sent, id));
    match step
    case Assemble(_) =>
      assert forall other :: other != id ==> PhaseOf(t, other) == PhaseOf(s, other);
    case Send(_, reply) =>
      if PhaseOf(s, id).Assembled? {
        var x := Exchange(id, PhaseOf(s, id).args, reply);
        RecordKeeps(env, s, x, if Rejection(x) then Rejected else Done(ResultOf(reply)));
      }
    case Mark(_) =>
      if PhaseOf(s, id).Rejected? {
        MarkKeeps(env, s, id);
      }
    case Reassemble(_) =>
      assert forall other :: other != id ==> PhaseOf(t, other) == PhaseOf(s, other);
    case Resend(_, reply) =>
      if PhaseOf(s, id).Reassembled? {
        RecordKeeps(env, s, Exchange(id, PhaseOf(s, id).args, reply), Done(ResultOf(reply)));
      }
  }

  lemma {:induction false} ExecuteKeeps(env: Env, s: System, steps: seq<Step>)
    requires StripsWhenOff(env) && Inv(env, s)
    ensures Inv(env, Execute(env, s, steps))
  {
    if steps != [] {
      ExecuteKeeps(env, s, steps[..|steps| - 1]);
      TakeKeeps(env, Execute(env, s, steps[..|steps| - 1]), steps[|steps| - 1]);
    }
  }

  lemma {:induction false} StartInv(env: Env)
    ensures Inv(env, START)
  {
  }

  // ---- every run ----

  /**
   * In every interleaving each request sends at most twice; the second send carries no cache points and
   * follows a rejection of injected ones; and a model is in the negative cache only because such a
   * rejection of one of its own requests has happened.
   */
  lemma {:induction false} EveryRunIsSafe(env: Env, steps: seq<Step>, id: nat)
    requires StripsWhenOff(env)
    ensures var s := Execute(env, START, steps);
            var sends := SendsOf(s.sent, id);
            && |sends| <= 2
            && (|sends| == 2 ==> Rejection(sends[0]) && CountArgs(sends[1].args) == 0)
            && (PhaseOf(s, id).Done? ==> sends != [] && PhaseOf(s, id).result == ResultOf(sends[|sends| - 1].reply))
            && (forall m <- s.unsupported :: RejectedFor(env, s.sent, m))
  {
    StartInv(env);
    ExecuteKeeps(env, START, steps);
    var s := Execute(env, START, steps);
    assert Consistent(PhaseOf(s, id), SendsOf(s.sent, id));
  }

  lemma {:induction false} ExecuteAppend(env: Env, s: System, a: seq<Step>, b: seq<Step>)
    ensures Execute(env, s, a + b) == Execute(env, Execute(env, s, a), b)
  {
    if b == [] {
      assert a + b == a;
    } else {
      assert (a + b)[..|a| + |b| - 1] == a + b[..|b| - 1];
      ExecuteAppend(env, s, a, b[..|b| - 1]);
    }
  }

  /** The negative cache only grows. */
  lemma {:induction false} NegativeCacheGrows(env: Env, s: System, steps: seq<Step>)
    ensures s.unsupported <= Execute(env, s, steps).unsupported
  {
    if steps != [] {
      NegativeCacheGrows(env, s, steps[..|steps| - 1]);
    }
  }

  // ---- no injection after a mark ----

  /** The request has sent no cache points and never will. */
  predicate Plain(s: System, id: nat) {
    && (forall x <- SendsOf(s.sent, id) :: CountArgs(x.args) == 0)
    && (PhaseOf(s, id).Done? || (PhaseOf(s, id).Assembled? && CountArgs(PhaseOf(s, id).args) == 0))
  }

  /** Steps of others, and steps after the end, leave a request alone. */
  lemma {:induction false} TakeLeaves(env: Env, s: System, step: Step, id: nat)
    requires step.id != id || PhaseOf(s, id).Done?
    ensures PhaseOf(Take(env, s, step), id) == PhaseOf(s, id)
    ensures SendsOf(Take(env, s, step).sent, id) == SendsOf(s.sent, id)
  {
    match step
    case Send(_, reply) =>
      if PhaseOf(s, step.id).Assembled? {
        SendsOfMore(s.sent, Exchange(step.id, PhaseOf(s, step.id).args, reply), id);
      }
    case Resend(_, reply) =>
      if PhaseOf(s, step.id).Reassembled? {
        SendsOfMore(s.sent, Exchange(step.id, PhaseOf(s, step.id).args, reply), id);
      }
    case _ =>
  }

  /** An assembled request without cache points cannot be rejected for them. */
  lemma {:induction false} OwnStepKeepsPlain(env: Env, s: System, step: Step)
    requires Plain(s, step.id) && PhaseOf(s, step.id).Assembled?
    ensures Plain(Take(env, s, step), step.id)
  {
    if step.Send? {
      var x := Exchange(step.id, PhaseOf(s, step.id).args, step.reply);
      SendsOfMore(s.sent, x, step.id);
      assert !Rejection(x);
    }
  }

  lemma {:induction false} TakeKeepsPlain(env: Env, s: System, step: Step, id: nat)
    requires Plain(s, id)
    ensures Plain(Take(env, s, step), id)
  {
    if step.id == id && PhaseOf(s, id).Assembled? {
      OwnStepKeepsPlain(env, s, step);
    } else {
      TakeLeaves(env, s, step, id);
    }
  }

  lemma {:induction false} ExecuteKeepsPlain(env: Env, s: System, steps: seq<Step>, id: nat)
    requires Plain(s, id)
    ensures Plain(Execute(env, s, steps), id)
  {
    if steps != [] {
      ExecuteKeepsPlain(env, s, steps[..|steps| - 1], id);
      TakeKeepsPlain(env, Execute(env, s, steps[..|steps| - 1]), steps[|steps| - 1], id);
    }
  }

  /**
   * A request assembled once its model is in the negative cache, whatever others do before and after, never
   * sends a cache point, and so is never sent twice.
   */
  lemma {:induction false} NoInjectionAfterMark(env: Env, before: seq<Step>, after: seq<Step>, id: nat)
    requires StripsWhenOff(env)
    requires var s := Execute(env, START, before); PhaseOf(s, id).New? && env.model(id) in s.unsupported
    ensures var sends := SendsOf(Execute(env, START, before + [Assemble(id)] + after).sent, id);
            |sends| <= 1 && forall x <- sends :: CountArgs(x.args) == 0
  {
    var s := Execute(env, START, before);
    StartInv(env);
    ExecuteKeeps(env, START, before);
    assert Consistent(PhaseOf(s, id), SendsOf(s.sent, id));
    var t := Take(env, s, Assemble(id));
    ExecuteAppend(env, START, before + [Assemble(id)], after);
    assert (before + [Assemble(id)])[..|before|] == before;
    assert Plain(t, id);
    ExecuteKeepsPlain(env, t, after, id);
    EveryRunIsSafe(env, before + [Assemble(id)] + after, id);
  }

  // ---- one request after the other ----

  datatype Served = Served(id: nat, first: Answer, second: Answer)

  /** All steps of one request, with the replies it would get. */
  function StepsOf(r: Served): seq<Step> {
    [Assemble(r.id), Send(r.id, r.first), Mark(r.id), Reassemble(r.id), Resend(r.id, r.second)]
  }

  function AllSteps(requests: seq<Served>): seq<Step> { FlatMap(StepsOf, requests) }

  predicate DistinctRequests(requests: seq<Served>) {
    forall i, j :: 0 <= i < j < |requests| ==> requests[i].id != requests[j].id
  }

  /** A request past its rejection has marked its model. */
  ghost predicate RetriesAreMarked(env: Env, s: System) {
    forall id :: MarkedIfRetried(env, s, id)
  }

  predicate MarkedIfRetried(env: Env, s: System, id: nat) {
    PhaseOf(s, id).Marked? || PhaseOf(s, id).Reassembled? || |SendsOf(s.sent, id)| >= 2 ==>
      env.model(id) in s.unsupported
  }

  lemma {:induction false} OwnStepMarks(env: Env, s: System, step: Step)
    requires Consistent(PhaseOf(s, step.id), SendsOf(s.sent, step.id)) && MarkedIfRetried(env, s, step.id)
    ensures MarkedIfRetried(env, Take(env, s, step), step.id)
  {
    var id := step.id;
    match step
    case Send(_, reply) =>
      if PhaseOf(s, id).Assembled? {
        SendsOfMore(s.sent, Exchange(id, PhaseOf(s, id).args, reply), id);
      }
    case _ =>
  }

  lemma {:induction false} TakeKeepsMarked(env: Env, s: System, step: Step)
    requires Inv(env, s) && RetriesAreMarked(env, s)
    ensures RetriesAreMarked(env, Take(env, s, step))
  {
    forall id: nat ensures MarkedIfRetried(env, Take(env, s, step), id) {
      assert MarkedIfRetried(env, s, id) && Consistent(PhaseOf(s, id), SendsOf(s.sent, id));
      if step.id == id {
        OwnStepMarks(env, s, step);
      } else {
        TakeLeaves(env, s, step, id);
      }
    }
  }

  lemma {:induction false} ExecuteKeepsMarked(env: Env, s: System, steps: seq<Step>)
    requires StripsWhenOff(env) && Inv(env, s) && RetriesAreMarked(env, s)
    ensures RetriesAreMarked(env, Execute(env, s, steps))
  {
    if steps != [] {
      ExecuteKeeps(env, s, steps[..|steps| - 1]);
      ExecuteKeepsMarked(env, s, steps[..|steps| - 1]);
      TakeKeepsMarked(env, Execute(env, s, steps[..|steps| - 1]), steps[|steps| - 1]);
    }
  }

  lemma {:induction false} ExecuteLeaves(env: Env, s: System, steps: seq<Step>, id: nat)
    requires PhaseOf(s, id).Done? || forall step <- steps :: step.id != id
    ensures PhaseOf(Execute(env, s, steps), id) == PhaseOf(s, id)
    ensures SendsOf(Execute(env, s, steps).sent, id) == SendsOf(s.sent, id)
  {
    if steps != [] {
      ExecuteLeaves(env, s, steps[..|steps| - 1], id);
      TakeLeaves(env, Execute(env, s, steps[..|steps| - 1]), steps[|steps| - 1], id);
    }
  }

  lemma {:induction false} ExecuteOne(env: Env, s: System, step: Step)
    ensures Execute(env, s, [step]) == Take(env, s, step)
  {
    assert [step][..0] == [];
  }

  /** What one uninterrupted call of the retrying send makes of a request. */
  function Uninterrupted(env: Env, s: System, r: Served): Outcome<Json> {
    var injected := CountArgs(env.assemble(r.id, env.model(r.id) in s.unsupported)) > 0;
    StripRetry(s.unsupported, env.model(r.id), injected, r.first, r.second)
  }

  /** All steps of a new request, with no other in between, are one call of the retrying send. */
  lemma {:induction false} ServedIsOneCall(env: Env, s: System, r: Served)
    requires PhaseOf(s, r.id).New? && SendsOf(s.sent, r.id) == []
    ensures var t, o := Execute(env, s, StepsOf(r)), Uninterrupted(env, s, r);
            && PhaseOf(t, r.id) == Done(o.result)
            && |SendsOf(t.sent, r.id)| == o.sends
            && t.unsupported == o.unsupported
  {
    FirstSteps(env, s, r);
    var a := Take(env, s, Assemble(r.id));
    var b := Take(env, a, Send(r.id, r.first));
    SentOnce(env, s, r, a, b);
    if PhaseOf(b, r.id).Done? {
      AnswerStands(env, s, r, b);
    } else {
      RejectedIsResent(env, b, r);
    }
  }

  function LaterSteps(r: Served): seq<Step> { [Mark(r.id), Reassemble(r.id), Resend(r.id, r.second)] }

  /** The first two steps, and what the others make of their state. */
  lemma {:induction false} FirstSteps(env: Env, s: System, r: Served)
    ensures Execute(env, s, StepsOf(r))
            == Execute(env, Take(env, Take(env, s, Assemble(r.id)), Send(r.id, r.first)), LaterSteps(r))
  {
    var a := Take(env, s, Assemble(r.id));
    ExecuteOne(env, s, Assemble(r.id));
    ExecuteOne(env, a, Send(r.id, r.first));
    ExecuteAppend(env, s, [Assemble(r.id)], [Send(r.id, r.first)]);
    assert StepsOf(r) == [Assemble(r.id)] + [Send(r.id, r.first)] + LaterSteps(r);
    ExecuteAppend(env, s, [Assemble(r.id)] + [Send(r.id, r.first)], LaterSteps(r));
  }

  /** Behind the first send the request is rejected or done, as the retrying send decides. */
  lemma {:induction false} SentOnce(env: Env, s: System, r: Served, a: System, b: System)
    requires PhaseOf(s, r.id).New? && SendsOf(s.sent, r.id) == []
    requires a == Take(env, s, Assemble(r.id)) && b == Take(env, a, Send(r.id, r.first))
    ensures |SendsOf(b.sent, r.id)| == 1 && b.unsupported == s.unsupported
    ensures var o := Uninterrupted(env, s, r);
            if o.sends == 2
            then PhaseOf(b, r.id).Rejected? && o.result == ResultOf(r.second)
                 && o.unsupported == s.unsupported + {env.model(r.id)}
            else PhaseOf(b, r.id) == Done(o.result) && o.sends == 1 && o.unsupported == s.unsupported
  {
    var x := Exchange(r.id, PhaseOf(a, r.id).args, r.first);
    SendsOfMore(s.sent, x, r.id);
    assert b == Enter(Record(a, x), r.id, if Rejection(x) then Rejected else Done(ResultOf(r.first)));
  }

  lemma {:induction false} AnswerStands(env: Env, s: System, r: Served, b: System)
    requires PhaseOf(b, r.id).Done?
    ensures var t := Execute(env, b, LaterSteps(r));
            t == b
  {
    IdleStepsMarkNothing(env, b, r);
  }

  lemma {:induction false} LastSteps(env: Env, s: System, r: Served)
    ensures Execute(env, s, [Mark(r.id), Reassemble(r.id), Resend(r.id, r.second)])
            == Take(env, Take(env, Take(env, s, Mark(r.id)), Reassemble(r.id)), Resend(r.id, r.second))
  {
    var a := Take(env, s, Mark(r.id));
    var b := Take(env, a, Reassemble(r.id));
    ExecuteOne(env, s, Mark(r.id));
    ExecuteOne(env, a, Reassemble(r.id));
    ExecuteOne(env, b, Resend(r.id, r.second));
    ExecuteAppend(env, s, [Mark(r.id)], [Reassemble(r.id)]);
    ExecuteAppend(env, s, [Mark(r.id)] + [Reassemble(r.id)], [Resend(r.id, r.second)]);
    assert [Mark(r.id), Reassemble(r.id), Resend(r.id, r.second)]
           == [Mark(r.id)] + [Reassemble(r.id)] + [Resend(r.id, r.second)];
  }

  lemma {:induction false} IdleStepsMarkNothing(env: Env, s: System, r: Served)
    requires PhaseOf(s, r.id).Done?
    ensures Execute(env, s, [Mark(r.id), Reassemble(r.id), Resend(r.id, r.second)]) == s
  {
    LastSteps(env, s, r);
  }

  lemma {:induction false} RejectedIsResent(env: Env, s: System, r: Served)
    requires PhaseOf(s, r.id).Rejected?
    ensures var t := Execute(env, s, [Mark(r.id), Reassemble(r.id), Resend(r.id, r.second)]);
            && PhaseOf(t, r.id) == Done(ResultOf(r.second))
            && |SendsOf(t.sent, r.id)| == |SendsOf(s.sent, r.id)| + 1
            && t.unsupported == s.unsupported + {env.model(r.id)}
  {
    LastSteps(env, s, r);
    SendsOfMore(s.sent, Exchange(r.id, env.assemble(r.id, true), r.second), r.id);
  }

  lemma {:induction false} StepsAreOfRequests(requests: seq<Served>, id: nat)
    requires forall r <- requests :: r.id != id
    ensures forall step <- AllSteps(requests) :: step.id != id
  {
    if requests != [] {
      StepsAreOfRequests(requests[..|requests| - 1], id);
    }
  }

  /** A request in a sequential run starts new, and is done once its turn is over. */
  lemma {:induction false} TurnIsServed(env: Env, requests: seq<Served>, i: nat)
    requires DistinctRequests(requests) && i < |requests|
    ensures PhaseOf(Execute(env, START, AllSteps(requests[..i])), requests[i].id).New?
    ensures PhaseOf(Execute(env, START, AllSteps(requests[..i + 1])), requests[i].id).Done?
  {
    var id := requests[i].id;
    forall r | r in requests[..i] ensures r.id != id {
      var k :| 0 <= k < i && requests[..i][k] == r;
      assert requests[k] == r;
    }
    StepsAreOfRequests(requests[..i], id);
    ExecuteLeaves(env, START, AllSteps(requests[..i]), id);
    assert requests[..i + 1] == requests[..i] + [requests[i]];
    FlatMapOne(StepsOf, requests[..i], requests[i]);
    ExecuteAppend(env, START, AllSteps(requests[..i]), StepsOf(requests[i]));
    ServedIsOneCall(env, Execute(env, START, AllSteps(requests[..i])), requests[i]);
  }

  lemma {:induction false} AllStepsSplit(env: Env, requests: seq<Served>, i: nat)
    requires i <= |requests|
    ensures AllSteps(requests) == AllSteps(requests[..i]) + AllSteps(requests[i..])
    ensures Execute(env, START, AllSteps(requests))
            == Execute(env, Execute(env, START, AllSteps(requests[..i])), AllSteps(requests[i..]))
  {
    assert requests == requests[..i] + requests[i..];
    FlatMapAppend(StepsOf, requests[..i], requests[i..]);
    ExecuteAppend(env, START, AllSteps(requests[..i]), AllSteps(requests[i..]));
  }

  /** What a request has sent by the end it had sent when its turn was over. */
  lemma {:induction false} SendsAreSettled(env: Env, requests: seq<Served>, i: nat, j: nat)
    requires DistinctRequests(requests) && i < j <= |requests|
    ensures var id := requests[i].id;
            SendsOf(Execute(env, START, AllSteps(requests)).sent, id)
            == SendsOf(Execute(env, START, AllSteps(requests[..j])).sent, id)
  {
    var id := requests[i].id;
    TurnIsServed(env, requests, i);
    AllStepsSplit(env, requests[..j], i + 1);
    assert requests[..j][..i + 1] == requests[..i + 1];
    ExecuteLeaves(env, Execute(env, START, AllSteps(requests[..i + 1])), AllSteps(requests[..j][i + 1..]), id);
    AllStepsSplit(env, requests, j);
    ExecuteLeaves(env, Execute(env, START, AllSteps(requests[..j])), AllSteps(requests[j..]), id);
  }

  /** The first step of a turn, and the rest of the run. */
  lemma {:induction false} TurnSplits(requests: seq<Served>, j: nat)
    requires j < |requests|
    ensures AllSteps(requests)
            == AllSteps(requests[..j]) + [Assemble(requests[j].id)]
               + (StepsOf(requests[j])[1..] + AllSteps(requests[j + 1..]))
  {
    var r := requests[j];
    assert requests == requests[..j] + ([r] + requests[j + 1..]);
    FlatMapAppend(StepsOf, requests[..j], [r] + requests[j + 1..]);
    FlatMapFirst(StepsOf, r, requests[j + 1..]);
    assert StepsOf(r) == [Assemble(r.id)] + StepsOf(r)[1..];
  }

  /** When requests are served one after the other, at most one for each model is sent a second time. */
  lemma {:induction false} OneRetryForEachModel(env: Env, requests: seq<Served>, i: nat, j: nat)
    requires StripsWhenOff(env) && DistinctRequests(requests) && i < j < |requests|
    requires env.model(requests[i].id) == env.model(requests[j].id)
    ensures var sent := Execute(env, START, AllSteps(requests)).sent;
            |SendsOf(sent, requests[i].id)| < 2 || |SendsOf(sent, requests[j].id)| < 2
  {
    var before := AllSteps(requests[..j]);
    var s := Execute(env, START, before);
    SendsAreSettled(env, requests, i, j);
    TurnIsServed(env, requests, j);
    StartInv(env);
    ExecuteKeepsMarked(env, START, before);
    if |SendsOf(s.sent, requests[i].id)| >= 2 {
      assert MarkedIfRetried(env, s, requests[i].id);
      TurnSplits(requests, j);
      NoInjectionAfterMark(env, before, StepsOf(requests[j])[1..] + AllSteps(requests[j + 1..]), requests[j].id);
    }
  }

  // ---- one request, as it is served ----

  /**
   * Assembles a request under the negative cache and sends it; `first` and `second` are what the two sends would
   * answer to the arguments they are given.
   */
  method Serve(registry: CacheSupportRegistry, job: Job, first: Args -> Answer, second: Args -> Answer)
    returns (r: Result<Json, SendFailure>, sends: nat)
    modifies registry
    ensures var model := NormalizeForMatch(job.model);
            var args := Decorate(job.policy, job.args, model in old(registry.unsupported));
            Outcome(r, sends, registry.unsupported)
            == StripRetry(old(registry.unsupported), model, CountArgs(args) > 0, first(args),
                          second(Decorate(job.policy, job.args, true)))
  {
    var model := NormalizeForMatch(job.model);
    var args, injected := DecorateZones(job.policy, job.args, registry.IsUnsupported(model));
    var stripped, none := DecorateZones(job.policy, job.args, true);
    r, sends := registry.SendWithCacheStripRetry(model, injected, first(args), second(stripped));
  }

  /** All steps of a new request, with no other in between, end as serving it promises. */
  lemma {:induction false} ServingIsUninterrupted(jobs: nat -> Job, s: System, id: nat, first: Args -> Answer,
                                                  second: Args -> Answer)
    requires PhaseOf(s, id).New? && SendsOf(s.sent, id) == []
    ensures var job, model := jobs(id), NormalizeForMatch(jobs(id).model);
            var args, stripped := Decorate(job.policy, job.args, model in s.unsupported),
                                  Decorate(job.policy, job.args, true);
            var t := Execute(EnvOf(jobs), s, StepsOf(Served(id, first(args), second(stripped))));
            && PhaseOf(t, id).Done?
            && Outcome(PhaseOf(t, id).result, |SendsOf(t.sent, id)|, t.unsupported)
               == StripRetry(s.unsupported, model, CountArgs(args) > 0, first(args), second(stripped))
  {
    var job, model := jobs(id), NormalizeForMatch(jobs(id).model);
    var args, stripped := Decorate(job.policy, job.args, model in s.unsupported), Decorate(job.policy, job.args, true);
    ServedIsOneCall(EnvOf(jobs), s, Served(id, first(args), second(stripped)));
  }
}
