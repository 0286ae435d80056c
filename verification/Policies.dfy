/** What the queue asks of a query policy, as a record of functions and a contract on them. */
module Policies {
  import opened Text
  import opened Domain
  import opened Registers

  const DEVICE_INFO := "InternetGatewayDevice.DeviceInfo."

  /** A policy's operations; a raised QueryConflict or InvalidEvidence is None. */
  datatype Policy = Policy(
    defaults: seq<string>,
    plan: (Target, Scope, Option<string>, seq<string>) -> Option<Plan>,
    restore: (string, string, Scope, Option<string>, seq<string>) -> Option<Plan>,
    permitted: (seq<Parameter>, Plan) -> seq<Parameter>,
    discoveryNames: (seq<Info>, Plan) -> seq<Info>,
    normalize: (seq<Parameter>, Plan, Time, Id) -> Inventory,
    collect: (seq<Parameter>, Plan, Time, Id) -> Option<Collection>,
    collectionResults: (seq<Parameter>, Plan, Collection) -> seq<Item>,
    evidence: (Reply, Plan, Kind, Time) -> Option<string>)

  /** How a plan relates to the request it was made for. */
  ghost predicate PlanFits(defaults: seq<string>, plan: Plan, target: Target, scope: Scope, path: Option<string>,
                           names: seq<string>) {
    && plan.target == target && plan.scope == scope
    && match scope
       case DeviceInfo => path.None? && plan.path == DEVICE_INFO && plan.names == if names == [] then defaults
           else names
       case Discovery => path.Some? && plan.path == path.value && Concrete(path.value) && plan.names == []
       case _ =>
         && path.Some? && plan.path == path.value
         && Ascending(Self, plan.names) && 1 <= |plan.names| <= 16 && forall n | n in plan.names :: n in names
  }

  ghost predicate PlanContract(p: Policy) {
    && |p.defaults| == 3
    && forall t, s, path, names {:trigger p.plan(t, s, path, names)} ::
         p.plan(t, s, path, names).Some? ==>
           PlanFits(p.defaults, p.plan(t, s, path, names).value, t, s, path, names)
  }

  /** Values that a plan permits to keep come from the reply and were asked for. */
  ghost predicate PermittedContract(p: Policy) {
    forall ps, plan {:trigger p.permitted(ps, plan)} ::
      && |p.permitted(ps, plan)| <= |ps|
      && (forall q | q in p.permitted(ps, plan) :: q in ps && q.name in plan.names)
      && (!plan.scope.DeviceInfo? ==> p.permitted(ps, plan) == [])
      && (DistinctBy(ParameterName, ps) ==> DistinctBy(ParameterName, p.permitted(ps, plan)))
  }

  /** The names answering `ps` are exactly the names of the plan, each once. */
  ghost predicate AnswersPlan(ps: seq<Parameter>, plan: Plan) {
    && DistinctBy(ParameterName, ps)
    && NameSet(ps) == SetOf(plan.names)
  }

  predicate Measured(scope: Scope) { scope.Wan? || scope.Optical? }

  /** Observations carry the time, the operation and the method of the read they come from. */
  ghost predicate ObservationContract(p: Policy) {
    && (forall ps, plan, now, id: Id {:trigger p.normalize(ps, plan, now, id)} ::
          var inv := p.normalize(ps, plan, now, id);
          inv.via.GetParameterValues? && inv.operation == Some(id) && inv.receivedAt == now)
    && (forall ps, plan, now, id: Id {:trigger p.collect(ps, plan, now, id)} ::
          p.collect(ps, plan, now, id).Some? ==>
            var c := p.collect(ps, plan, now, id).value;
            && c.receivedAt == now && c.operation == id
            && (AnswersPlan(ps, plan) && Ascending(Self, plan.names) && |plan.names| <= 16 && Measured(plan.scope) ==>
                  CollectionOk(c)))
  }

  /** Names kept in a discovery result were reported, and no concrete object among them is lost. */
  ghost predicate DiscoveryContract(p: Policy) {
    forall names, plan {:trigger p.discoveryNames(names, plan)} ::
      && (forall i | i in p.discoveryNames(names, plan) :: i in names)
      && (plan.scope.Discovery? ==> forall i: Info | i in names && Concrete(i.name) ::
          i in p.discoveryNames(names, plan))
  }

  ghost predicate Contract(p: Policy) {
    PlanContract(p) && PermittedContract(p) && ObservationContract(p) && DiscoveryContract(p)
  }

  // ----- What a replayed reply relies on -----

  /** The part of a plan that judging a reply may depend on. */
  ghost predicate SameCore(a: Plan, b: Plan) {
    && a.profileId == b.profileId && a.profileVersion == b.profileVersion && a.names == b.names
    && a.path == b.path && a.scope == b.scope
  }

  /** Two orderings of the same entries with distinct names. */
  ghost predicate SameEntries<T(!new)>(key: T -> string, a: seq<T>, b: seq<T>) {
    DistinctBy(key, a) && DistinctBy(key, b) && forall x :: x in a <==> x in b
  }

  /** A plan made again, or restored from the stored profile, has the same core. */
  ghost predicate StablePlans(p: Policy) {
    && (forall t1, t2, s, path, names {:trigger p.plan(t1, s, path, names), p.plan(t2, s, path, names)} ::
          var a, b := p.plan(t1, s, path, names), p.plan(t2, s, path, names);
          a.Some? && b.Some? && a.value.profileId == b.value.profileId ==> SameCore(a.value, b.value))
    && (forall t, s, path, names {:trigger p.plan(t, s, path, names)} ::
          var a := p.plan(t, s, path, names);
          a.Some? ==>
            var b := p.restore(a.value.profileId, a.value.profileVersion, s, path, names);
            b.Some? && SameCore(a.value, b.value))
  }

  predicate SomeField(c: Collection, s: TelemetryState) { exists f :: f in c.fields && f.state == s }

  /** Judging does not depend on the order of entries, on time, on the operation or on the target. */
  ghost predicate StableJudgement(p: Policy) {
    && (forall ps, qs, a, b {:trigger p.permitted(ps, a), p.permitted(qs, b)} ::
          SameCore(a, b) && SameEntries(ParameterName, ps, qs) ==>
            SameEntries(ParameterName, p.permitted(ps, a), p.permitted(qs, b)))
    && (forall ns, ms, a, b {:trigger p.discoveryNames(ns, a), p.discoveryNames(ms, b)} ::
          SameCore(a, b) && SameEntries(InfoName, ns, ms) ==>
            SameEntries(InfoName, p.discoveryNames(ns, a), p.discoveryNames(ms, b)))
    && (forall ps, qs, a, b, t, u, i: Id, k: Id {:trigger p.normalize(ps, a, t, i), p.normalize(qs, b, u, k)} ::
          SameCore(a, b) && SameEntries(ParameterName, ps, qs) ==>
            var x, y := p.normalize(ps, a, t, i), p.normalize(qs, b, u, k);
            x.model == y.model && x.firmware == y.firmware && x.hardware == y.hardware)
    && (forall ps, qs, a, b, t, u, i: Id, k: Id {:trigger p.collect(ps, a, t, i), p.collect(qs, b, u, k)} ::
          SameCore(a, b) && SameEntries(ParameterName, ps, qs) && AnswersPlan(ps, a) && Measured(a.scope) ==>
            var x, y := p.collect(ps, a, t, i), p.collect(qs, b, u, k);
            && x.Some? == y.Some?
            && (x.Some? ==>
                  && (forall s :: SomeField(x.value, s) <==> SomeField(y.value, s))
                  && SameEntries(ItemName, p.collectionResults(ps, a, x.value), p.collectionResults(qs, b, y.value))))
  }
}
