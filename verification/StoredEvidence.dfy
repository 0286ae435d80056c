/** Over all runs of the queue under the Huawei policy, every evidence text that an operation holds is the text
    of a bundle that verifies. */
module StoredEvidence {
  import opened Text
  import opened Domain
  import opened Policies
  import opened Jobs
  import opened Queue
  import opened Invariants
  import opened OperationProofs
  import opened Runs
  import opened OpRules
  import Telemetry
  import Huawei
  import Soap
  import Relabel
  import Evidence
  import EvidenceProofs
  import Disclosure

  /** How a bundle is written; None when the text is too large to keep. */
  type Render = Evidence.Bundle -> Option<string>

  function Keeps(lib: Telemetry.Lib, render: Render): (Reply, Plan, Kind, Time) -> Option<string> {
    (reply: Reply, plan: Plan, kind: Kind, at: Time) =>
      match Evidence.EvidenceOf(lib, reply, plan, kind, at)
      case None => None
      case Some(b) => render(b)
  }

  function PolicyOf(lib: Telemetry.Lib, render: Render): Policy { Huawei.HuaweiPolicy(lib, Keeps(lib, render)) }

  ghost predicate Genuine(lib: Telemetry.Lib, render: Render, text: string) {
    exists b :: render(b) == Some(text) && Evidence.Verify(lib, b) == Some(b)
  }

  ghost predicate AllGenuine(lib: Telemetry.Lib, render: Render, ops: map<Id, Op>) {
    forall i | i in ops && ops[i].evidence.Some? :: Genuine(lib, render, ops[i].evidence.value)
  }

  /** Replies are ones that the parser accepts. */
  ghost predicate Parsed(a: Action) { a.DoExchange? && a.reply.Some? ==> Soap.ValidReply(a.reply.value) }

  ghost predicate AllParsed(actions: seq<Action>) { forall a | a in actions :: Parsed(a) }

  // ----- The one step that adds evidence -----

  /** A reply whose judgement calls for evidence is one that the fixed point covers. */
  lemma JudgedIsPackaged(p: Policy, target: Target, op: Op, attempted: bool, plan: Plan, reply: Reply, v: Verdict,
                         now: Time, id: Id)
    requires p.plan == Huawei.MakePlan && p.defaults == Huawei.NAMES && Soap.ValidReply(reply) && OpOk(op, attempted)
    requires RowPlan(p, target, op.ask) == Some(plan) && Judge(p, op.ask, plan, reply, now, id) == Some(v)
             && Captures(op, v)
    ensures EvidenceProofs.Packaged(plan, op.ask.kind, reply)
  {
    hide Huawei.MakePlan, Soap.ValidReply, JudgeTelemetry, JudgeInventory, ReportedUnder;
    assert Huawei.MakePlan(target, op.ask.scope, op.ask.path, op.ask.requested) == Some(plan);
    Huawei.PlanFitsRequest(target, op.ask.scope, op.ask.path, op.ask.requested);
    MadeHere(target, op.ask, plan);
  }

  lemma MadeHere(target: Target, ask: Ask, plan: Plan)
    requires Huawei.MakePlan(target, ask.scope, ask.path, ask.requested) == Some(plan)
    ensures EvidenceProofs.Made(plan)
  {}

  lemma KeptIsGenuine(lib: Telemetry.Lib, render: Render, reply: Reply, plan: Plan, kind: Kind, at: Time)
    requires Relabel.AddressLib(lib) && EvidenceProofs.Packaged(plan, kind, reply)
    ensures var text := PolicyOf(lib, render).evidence(reply, plan, kind, at);
            text.Some? ==> Genuine(lib, render, text.value)
  {
    hide EvidenceProofs.Packaged, Relabel.AddressLib, Evidence.EvidenceOf, Evidence.Verify;
    EvidenceProofs.EvidenceFixedPoint(lib, reply, plan, kind, at);
  }

  // ----- The Huawei policy -----

  lemma PolicyMeets(lib: Telemetry.Lib, render: Render)
    ensures Contract(PolicyOf(lib, render))
  {
    hide Contract;
    Huawei.HuaweiMeetsContract(lib, Keeps(lib, render));
  }

  /** The evidence of an operation, if it has any, is that of a bundle that verifies. */
  ghost predicate Backed(lib: Telemetry.Lib, render: Render, op: Op) {
    op.evidence.Some? ==> Genuine(lib, render, op.evidence.value)
  }

  lemma BackedClosed(lib: Telemetry.Lib, render: Render)
    ensures KeptByMoves((op: Op) => Backed(lib, render, op))
  {
    hide Genuine;
  }

  lemma BackedAnswered(lib: Telemetry.Lib, render: Render)
    requires Relabel.AddressLib(lib)
    ensures Answered(PolicyOf(lib, render), r => Soap.ValidReply(r), (op: Op) => Backed(lib, render, op))
  {
    hide RowPlan, Judge, Genuine, Soap.ValidReply, Relabel.AddressLib, EvidenceProofs.Packaged, OpOk, Keeps, Captures;
    var p := PolicyOf(lib, render);
    forall target, op, plan, reply, v, now, id: Id |
      Soap.ValidReply(reply) && OpOk(op, true) && RowPlan(p, target, op.ask) == Some(plan)
      && Judge(p, op.ask, plan, reply, now, id) == Some(v) && Captures(op, v)
      ensures var text := p.evidence(reply, plan, op.ask.kind, now); text.Some? ==> Genuine(lib, render, text.value)
    {
      JudgedIsPackaged(p, target, op, true, plan, reply, v, now, id);
      KeptIsGenuine(lib, render, reply, plan, op.ask.kind, now);
    }
  }

  /** From the empty database, whatever actions follow, every evidence text in the database is the text of a bundle that
      verifies. */
  lemma EvidenceVerifies(lib: Telemetry.Lib, render: Render, actions: seq<Action>)
    requires Relabel.AddressLib(lib) && AllPossible(actions) && AllParsed(actions)
    ensures AllGenuine(lib, render, Run(PolicyOf(lib, render), EMPTY, actions).ops)
  {
    hide KeptByMoves, Answered, PolicyOf, Relabel.AddressLib, Contract, Run, Genuine, Soap.ValidReply, AllPossible;
    PolicyMeets(lib, render);
    BackedClosed(lib, render);
    BackedAnswered(lib, render);
    RunsKeep(PolicyOf(lib, render), r => Soap.ValidReply(r), (op: Op) => Backed(lib, render, op), actions);
  }

  /** So no evidence in the database shows an address of a WAN field other than documentation's. */
  lemma EvidenceHarmless(lib: Telemetry.Lib, render: Render, actions: seq<Action>)
    requires Relabel.AddressLib(lib) && AllPossible(actions) && AllParsed(actions)
    ensures var ops := Run(PolicyOf(lib, render), EMPTY, actions).ops;
            forall i | i in ops && ops[i].evidence.Some? ::
              exists b :: render(b) == Some(ops[i].evidence.value) && Disclosure.HarmlessBundle(b)
  {
    hide PolicyOf, Relabel.AddressLib, Run, AllPossible, AllParsed, Evidence.Verify, Disclosure.HarmlessBundle;
    EvidenceVerifies(lib, render, actions);
    var ops := Run(PolicyOf(lib, render), EMPTY, actions).ops;
    forall i | i in ops && ops[i].evidence.Some?
      ensures exists b :: render(b) == Some(ops[i].evidence.value) && Disclosure.HarmlessBundle(b)
    {
      var b :| render(b) == Some(ops[i].evidence.value) && Evidence.Verify(lib, b) == Some(b);
      Disclosure.VerifiedIsHarmless(lib, b);
    }
  }
}
