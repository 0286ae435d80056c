/** Devices and their rows: an Inform finds its device by identity or adds it, opens a session for it and records its
    inventory; after any run no two rows have the same identity, and no row ever changes its own. */
module Identities {
  import opened Text
  import opened Domain
  import opened Policies
  import opened Jobs
  import opened Registers
  import opened Queue
  import opened Invariants
  import opened OperationProofs
  import opened Runs
  import Validation
  import opened Effects
  import opened ObservedRuns

  predicate SameIdentity(a: Cpe, b: Cpe) { a.oui == b.oui && a.productClass == b.productClass && a.serial == b.serial }

  /** No two rows have the same identity. */
  ghost predicate Distinguished(cpes: map<Id, Cpe>) {
    forall a, b | a in cpes && b in cpes && SameIdentity(cpes[a], cpes[b]) :: a == b
  }

  /** Every row is still there, under the same identity. */
  ghost predicate Kept(cpes: map<Id, Cpe>, later: map<Id, Cpe>) {
    forall c | c in cpes :: c in later && SameIdentity(cpes[c], later[c])
  }

  // ----- An Inform -----

  predicate IsDevice(c: Cpe, d: Device) {
    c.manufacturer == d.manufacturer && c.oui == d.oui && c.productClass == d.productClass && c.serial == d.serial
  }

  /** An accepted Inform opens a session, under a token not used before, for the one row with the identity of its
      device: the row that was there, or a new one without columns; the row takes over the manufacturer, and the
      inventory is recorded for it. Nothing else changes. */
  lemma AcceptOpens(db: Db, token: string, d: Device, inv: Inventory, now: Time, expiresAt: Time)
    requires db.next !in db.store.cpes
    ensures var o := Accept(db, token, d, inv, now, expiresAt);
            && (o.Commit? <==> token !in db.sessions)
            && (o.Raised? ==> o.error == StorageUnavailable)
            && (o.Commit? ==>
                  && o.db.sessions == db.sessions[token := Session(o.result, AwaitingEmpty, expiresAt, None)]
                  && o.db.ops == db.ops && o.db.attempts == db.attempts && o.db.jobs == db.jobs
                  && o.db.catalog == db.catalog && o.db.values == db.values
                  && (if exists c :: c in db.store.cpes && Matches(db.store.cpes[c], d)
                      then o.result in db.store.cpes && Matches(db.store.cpes[o.result], d) && o.db.next == db.next
                      else o.result == db.next && o.db.next == db.next + 1)
                  && o.result in o.db.store.cpes && IsDevice(o.db.store.cpes[o.result], d)
                  && (forall c | c in db.store.cpes && c != o.result ::
                        c in o.db.store.cpes && o.db.store.cpes[c] == db.store.cpes[c])
                  && o.db.store ==
                       UpdateInventory(db.store.(cpes := db.store.cpes[o.result := RowFor(db.store.cpes, o.result, d)]),
                                       o.result, inv))
  {
    hide WrittenFields, NewValue, Revoked;
  }

  function RowFor(cpes: map<Id, Cpe>, c: Id, d: Device): Cpe {
    if c in cpes then cpes[c].(manufacturer := d.manufacturer)
    else Cpe(d.manufacturer, d.oui, d.productClass, d.serial, None, None, None)
  }

  predicate Matches(c: Cpe, d: Device) { c.oui == d.oui && c.productClass == d.productClass && c.serial == d.serial }

  // ----- Every step -----

  lemma InventoryKeeps(s: Store, cpe: Id, inv: Inventory)
    requires cpe in s.cpes
    ensures var later := UpdateInventory(s, cpe, inv).cpes;
            later.Keys == s.cpes.Keys && forall c | c in s.cpes :: SameIdentity(s.cpes[c], later[c])
  {
    hide WrittenFields, Revoked;
  }

  lemma StoredKeeps(s: Store, cpe: Id, v: Verdict)
    requires cpe in s.cpes
    ensures var later := Stored(s, cpe, v).cpes;
            later.Keys == s.cpes.Keys && forall c | c in s.cpes :: SameIdentity(s.cpes[c], later[c])
  {
    hide UpdateInventory, RecordObservations;
    if v.inventory.Some? { InventoryKeeps(s, cpe, v.inventory.value); }
  }

  lemma SameKeysKept(cpes: map<Id, Cpe>, later: map<Id, Cpe>)
    requires later.Keys == cpes.Keys && forall c | c in cpes :: SameIdentity(cpes[c], later[c])
    ensures Kept(cpes, later) && (Distinguished(cpes) ==> Distinguished(later))
  {
    forall a, b | Distinguished(cpes) && a in later && b in later && SameIdentity(later[a], later[b]) ensures a == b {
      assert SameIdentity(cpes[a], cpes[b]);
    }
  }

  /** Writing the row of the one device with that identity, or of a new one. */
  lemma UpsertKeeps(cpes: map<Id, Cpe>, c: Id, d: Device)
    requires Distinguished(cpes) && (c in cpes ==> Matches(cpes[c], d))
             && (c !in cpes ==> forall x | x in cpes :: !Matches(cpes[x], d))
    ensures var later := cpes[c := RowFor(cpes, c, d)]; Kept(cpes, later) && Distinguished(later)
  {
    var later := cpes[c := RowFor(cpes, c, d)];
    forall a, b | a in later && b in later && SameIdentity(later[a], later[b]) ensures a == b {
      if a in cpes && b in cpes { assert SameIdentity(cpes[a], cpes[b]); }
    }
  }

  lemma AcceptKeeps(db: Db, token: string, d: Device, inv: Inventory, now: Time, expiresAt: Time)
    requires db.next !in db.store.cpes && Distinguished(db.store.cpes)
    ensures var later := Settle(db, Accept(db, token, d, inv, now, expiresAt)).store.cpes;
            Kept(db.store.cpes, later) && Distinguished(later)
  {
    hide UpdateInventory, Distinguished, Kept;
    SameKept(db.store.cpes);
    if token !in db.sessions {
      AcceptOpens(db, token, d, inv, now, expiresAt);
      var c := Accept(db, token, d, inv, now, expiresAt).result;
      UpsertKeeps(db.store.cpes, c, d);
      var mid := db.store.(cpes := db.store.cpes[c := RowFor(db.store.cpes, c, d)]);
      InventoryKeeps(mid, c, inv);
      SameKeysKept(mid.cpes, UpdateInventory(mid, c, inv).cpes);
      KeptTransitive(db.store.cpes, mid.cpes, UpdateInventory(mid, c, inv).cpes);
    }
  }

  lemma ExchangeIdentities(p: Policy, db: Db, token: string, reply: Option<Reply>, rpcId: string, now: Time)
    ensures var later := Settle(db, Exchange(p, db, token, reply, rpcId, now)).store.cpes;
            Kept(db.store.cpes, later) && (Distinguished(db.store.cpes) ==> Distinguished(later))
  {
    hide Distinguished, Kept, Expire, AdvanceActive, Poll, Answer, Stored, ValuesAll, Recording, Lasts;
    SameKept(db.store.cpes);
    if token in db.sessions && db.sessions[token].cpe in db.store.cpes {
      var cpe := db.sessions[token].cpe;
      var d := Prepared(p, db, cpe, now);
      PreparedQuiet(p, db, cpe, now);
      SameSessions(p, db, cpe, now, token);
      if reply.None? {
        PollDispatches(p, d, token, rpcId, now);
      } else {
        AnswerStores(p, d, token, reply.value, now);
        var t := Recording(p, d, token, reply.value, now);
        if t.Some? {
          StoredKeeps(d.store, cpe, t.value.verdict);
          SameKeysKept(d.store.cpes, Stored(d.store, cpe, t.value.verdict).cpes);
        }
      }
    }
  }

  lemma SameKept(cpes: map<Id, Cpe>)
    ensures Kept(cpes, cpes)
  {}

  lemma KeptTransitive(a: map<Id, Cpe>, b: map<Id, Cpe>, c: map<Id, Cpe>)
    requires Kept(a, b) && Kept(b, c)
    ensures Kept(a, c)
  {}

  lemma StepIdentities(p: Policy, db: Db, a: Action)
    requires db.next !in db.store.cpes && Distinguished(db.store.cpes)
    ensures Kept(db.store.cpes, Act(p, db, a).store.cpes) && Distinguished(Act(p, db, a).store.cpes)
  {
    hide Distinguished, Kept, Create, Get, CreateJob, GetJob, Exchange, Accept, Complete, Validation.Bind,
      Validation.Approve;
    SameKept(db.store.cpes);
    match a
    case DoExchange(token, reply, rpcId, now) => ExchangeIdentities(p, db, token, reply, rpcId, now);
    case DoAccept(token, d, inv, now, expiresAt) => AcceptKeeps(db, token, d, inv, now, expiresAt);
    case _ => OtherStores(p, db, a);
  }

  /** From any reachable state on, rows stay under their own identity and no two share one. */
  lemma {:induction false} IdentitiesOfRun(p: Policy, db: Db, actions: seq<Action>)
    requires Contract(p) && Inv(p, db) && AllPossible(actions) && Distinguished(db.store.cpes)
    ensures var later := Run(p, db, actions).store.cpes; Kept(db.store.cpes, later) && Distinguished(later)
  {
    hide Contract, Inv, Possible, Act, Distinguished, Kept, Evolves;
    if actions == [] {
      SameKept(db.store.cpes);
    } else {
      var n := |actions| - 1;
      var mid := Run(p, db, actions[..n]);
      IdentitiesOfRun(p, db, actions[..n]);
      RunKeeps(p, db, actions[..n]);
      NextIsFree(p, mid);
      StepIdentities(p, mid, actions[n]);
      KeptTransitive(db.store.cpes, mid.store.cpes, Act(p, mid, actions[n]).store.cpes);
    }
  }

  /** In every reachable state the identity of a device determines its row. */
  lemma OneRowEach(p: Policy, db: Db, a: Id, b: Id)
    requires Contract(p) && Reachable(p, db) && a in db.store.cpes && b in db.store.cpes
    requires SameIdentity(db.store.cpes[a], db.store.cpes[b])
    ensures a == b
  {
    hide Contract, Run, AllPossible;
    var actions :| AllPossible(actions) && db == Run(p, EMPTY, actions);
    EmptyInv(p);
    IdentitiesOfRun(p, EMPTY, actions);
  }
}
