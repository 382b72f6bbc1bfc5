/** src/acp/db/queries/claim.py: candidate selection, the rounds that spend tenant slack, and the grant. */
module Claim {
  import opened Wrappers
  import opened Orders
  import opened States
  import opened Tables
  import opened Agents

  const MAX_ROUNDS: nat := 4

  datatype Candidate = Candidate(priority: nat, availableAt: Time, id: TaskId)

  /** The default policy, and the order the keyed path hard-codes: priority, available_at, id. */
  predicate Before(a: Candidate, b: Candidate) {
    || a.priority < b.priority
    || (a.priority == b.priority &&
        (a.availableAt < b.availableAt || (a.availableAt == b.availableAt && a.id < b.id)))
  }

  lemma BeforeIsTotalOrder()
    ensures TotalOrder(Before)
  {}

  predicate Ready(t: Task, now: Time) {
    t.state == Queued && t.availableAt <= now
  }

  function CandidateOf(id: TaskId, t: Task): Candidate {
    Candidate(t.priority, t.availableAt, id)
  }

  predicate UsesKeys(caps: seq<string>) {
    |Normalised(caps)| <= MAX_KEYED_CLAIM_CAPABILITIES
  }

  /** Whether a worker's claim can return a row: a key lookup for a small capability list, array
      containment of the strings as stored for a large one. */
  predicate Eligible(t: Task, caps: seq<string>) {
    if UsesKeys(caps) then t.capabilityKey in SatisfiableKeys(caps)
    else Elements(t.requiredCapabilities) <= Elements(caps)
  }

  /** The rows a claim may still take: ready, not locked elsewhere, not yet seen, eligible. */
  function EligibleRows(db: Db, caps: seq<string>, skip: set<TaskId>): set<Candidate> {
    set id | id in db.tasks && Ready(db.tasks[id], db.now) && id !in skip && Eligible(db.tasks[id], caps)
      :: CandidateOf(id, db.tasks[id])
  }

  /** One LATERAL branch: the rows of one capability key. */
  function KeyedRows(db: Db, key: string, skip: set<TaskId>): set<Candidate> {
    set id | id in db.tasks && Ready(db.tasks[id], db.now) && id !in skip && db.tasks[id].capabilityKey == key
      :: CandidateOf(id, db.tasks[id])
  }

  /** `ORDER BY priority, available_at, id LIMIT need`. */
  function Best(need: nat, rows: set<Candidate>): seq<Candidate> {
    BeforeIsTotalOrder();
    Take(need, rows, Before)
  }

  function Order(rows: set<Candidate>): seq<Candidate> {
    BeforeIsTotalOrder();
    Ascending(rows, Before)
  }

  lemma OrderFacts(rows: set<Candidate>)
    ensures |Order(rows)| == |rows| && Elements(Order(rows)) == rows && Increasing(Order(rows), Before)
  {
    BeforeIsTotalOrder();
    AscendingIncreases(rows, Before);
  }

  /** The branches of the merge put together. */
  function Branches(db: Db, keys: set<string>, need: nat, skip: set<TaskId>): set<Candidate> {
    set key, c | key in keys && c in Best(need, KeyedRows(db, key, skip)) :: c
  }

  /** The keyed merge is the filter: the best `need` of every key's rows, put together, sorted and cut,
      is the whole filtered table sorted and cut, for every table, skip set and capability list. */
  lemma KeyedMergeIsFilter(db: Db, caps: seq<string>, need: nat, skip: set<TaskId>)
    requires UsesKeys(caps)
    ensures Best(need, Branches(db, SatisfiableKeys(caps), need, skip)) == Best(need, EligibleRows(db, caps, skip))
  {
    BeforeIsTotalOrder();
    var all := EligibleRows(db, caps, skip);
    var union := Branches(db, SatisfiableKeys(caps), need, skip);
    var keyOf := (c: Candidate) => if c.id in db.tasks then db.tasks[c.id].capabilityKey else "";
    forall c | c in union ensures c in all {
      var key :| key in SatisfiableKeys(caps) && c in Best(need, KeyedRows(db, key, skip));
      assert c in KeyedRows(db, key, skip);
    }
    forall key: string ensures Elements(Take(need, Group(all, keyOf, key), Before)) <= union {
      if key in SatisfiableKeys(caps) {
        assert Group(all, keyOf, key) == KeyedRows(db, key, skip);
        assert forall c <- Best(need, KeyedRows(db, key, skip)) :: c in union;
      } else {
        assert Group(all, keyOf, key) == {};
      }
    }
    MergeOfGroups(need, all, union, keyOf, Before);
  }

  // ---- capability matching, both strategies ---------------------------------------------------------

  /** `submit_task` stores the list as given and the key computed from it. */
  predicate KeyStored(t: Task) {
    t.capabilityKey == CapabilityKey(t.requiredCapabilities)
  }

  /** On the keyed path a row is eligible exactly when the worker satisfies it, for comma-free names. */
  lemma KeyedEligibleIffSatisfied(t: Task, caps: seq<string>)
    requires |Normalised(caps)| <= 5 && KeyStored(t)
    requires AllCommaFree(Normalised(t.requiredCapabilities)) && AllCommaFree(Normalised(caps))
    ensures Eligible(t, caps) <==> WorkerSatisfies(t.requiredCapabilities, caps)
  {
    KeyListedIffSatisfied(t.requiredCapabilities, caps);
  }

  /** A worker's own list is normalised when it starts. */
  predicate WorkerList(caps: seq<string>) {
    forall c <- caps :: Clean(c)
  }

  /** The fallback compares raw strings: for a normalised worker list it takes exactly the tasks the
      worker satisfies whose stored names are all normalised and non-blank. So it never takes too much. */
  lemma FallbackTakesIff(required: seq<string>, caps: seq<string>)
    requires WorkerList(caps)
    ensures Elements(required) <= Elements(caps) <==> WorkerSatisfies(required, caps) && forall c <- required :: Clean(c)
  {
    CleanAreKept(caps);
    if forall c <- required :: Clean(c) {
      CleanAreKept(required);
    } else {
      var r :| r in required && !Clean(r);
      assert r in Elements(required) && r !in Elements(caps);
    }
  }

  /** The fallback serves the workers the keyed path does not: it agrees with `worker_satisfies` for every
      one of their normalised lists exactly when the stored requirement is itself normalised and holds no
      blank. A task that asks for "GPU" is claimable by a five-capability worker that has "gpu" and never
      by a six-capability one. */
  lemma FallbackExactIff(t: Task)
    ensures
      (forall caps: seq<string> | WorkerList(caps) && !UsesKeys(caps) ::
        (Eligible(t, caps) <==> WorkerSatisfies(t.requiredCapabilities, caps)))
      <==> (forall c <- t.requiredCapabilities :: Clean(c))
  {
    var required := t.requiredCapabilities;
    if forall c <- required :: Clean(c) {
      forall caps: seq<string> | WorkerList(caps) && !UsesKeys(caps)
        ensures Eligible(t, caps) <==> WorkerSatisfies(required, caps)
      {
        FallbackTakesIff(required, caps);
      }
    } else {
      var caps := WideList(required);
      FallbackTakesIff(required, caps);
      assert WorkerSatisfies(required, caps) && !Eligible(t, caps);
    }
  }

  // Six names the normaliser leaves alone.
  const SIX: set<string> := {"a", "b", "c", "d", "e", "f"}

  lemma SixNames()
    ensures |SIX| == 6 && forall n <- SIX :: Clean(n)
  {
    forall n | n in SIX ensures Clean(n) { ShortNamesAreClean(n); }
  }

  /** Some worker with more than five capabilities has everything a task requires. */
  lemma WideList(required: seq<string>) returns (caps: seq<string>)
    ensures WorkerList(caps) && !UsesKeys(caps) && WorkerSatisfies(required, caps)
  {
    var names := Normalised(required) + SIX;
    caps := Sorted(names);
    SixNames();
    NormalisedAreClean(required);
    ListOfClean(names, caps);
    SubsetSize(SIX, names);
  }

  lemma ListOfClean(names: set<string>, caps: seq<string>)
    requires Elements(caps) == names && forall n <- names :: Clean(n)
    ensures WorkerList(caps) && Normalised(caps) == names
  {
    assert forall c <- caps :: c in Elements(caps);
    CleanAreKept(caps);
  }

  // ---- tenant slack ----------------------------------------------------------------------------------

  function RunningSet(tasks: map<TaskId, Task>, tenant: TenantId): set<TaskId> {
    set id | id in tasks && tasks[id].tenant == tenant && tasks[id].state == Running
  }

  /** max_concurrent_tasks minus what is RUNNING; nothing for an unknown tenant. */
  function Slack(db: Db, tenant: TenantId): int {
    if tenant in db.tenants then db.tenants[tenant].maxConcurrent - |RunningSet(db.tasks, tenant)| else 0
  }

  function TenantOf(tasks: map<TaskId, Task>, id: TaskId): TenantId {
    if id in tasks then tasks[id].tenant else 0
  }

  function CountOf(tasks: map<TaskId, Task>, ids: seq<TaskId>, tenant: TenantId): nat {
    if ids == [] then 0 else
      CountOf(tasks, ids[..|ids| - 1], tenant) + if TenantOf(tasks, ids[|ids| - 1]) == tenant then 1 else 0
  }

  /** The tenant of a row has no slack left after the rows already picked. */
  predicate NoSlack(db: Db, picked: seq<TaskId>, id: TaskId) {
    var tenant := TenantOf(db.tasks, id);
    CountOf(db.tasks, picked, tenant) >= Slack(db, tenant)
  }

  /** One row of the pass: taken while the limit and its tenant's slack allow. */
  function Pick(db: Db, picked: seq<TaskId>, id: TaskId, limit: nat): seq<TaskId> {
    if |picked| < limit && !NoSlack(db, picked, id) then picked + [id] else picked
  }

  /** The simple algorithm: one pass over the rows in order. */
  function Greedy(db: Db, rows: seq<Candidate>, limit: nat): (picked: seq<TaskId>)
    ensures |picked| <= limit && |picked| <= |rows|
  {
    if rows == [] then [] else
      Pick(db, Greedy(db, rows[..|rows| - 1], limit), rows[|rows| - 1].id, limit)
  }

  /** How many rows have been seen after a number of rounds: each round asks for as many as are missing. */
  function Seen(db: Db, rows: seq<Candidate>, limit: nat, rounds: nat): (n: nat)
    ensures n <= |rows|
  {
    if rounds == 0 then 0 else
      var n := Seen(db, rows, limit, rounds - 1);
      Min(n + limit - |Greedy(db, rows[..n], limit)|, |rows|)
  }

  /** What a call may claim in a number of rounds: the greedy answer over the rows they have seen. */
  function ClaimWithin(db: Db, caps: seq<string>, limit: nat, locked: set<TaskId>, rounds: nat): seq<TaskId> {
    var rows := Order(EligibleRows(db, caps, locked));
    Greedy(db, rows[..Seen(db, rows, limit, rounds)], limit)
  }

  // ---- the grant -------------------------------------------------------------------------------------

  function GrantedRow(t: Task, worker: WorkerId, ttl: nat, now: Time): Task {
    t.(state := Running, attempt := t.attempt + 1, leaseWorker := Some(worker),
       leaseExpiresAt := Some(now + Seconds(ttl)),
       firstStartedAt := if t.firstStartedAt.Some? then t.firstStartedAt else Some(now))
  }

  /** The granting UPDATE tests nothing but the id. */
  function Grant(db: Db, id: TaskId, worker: WorkerId, ttl: nat): Db {
    if id !in db.tasks then db else
      var t := GrantedRow(db.tasks[id], worker, ttl, db.now);
      db.(tasks := db.tasks[id := t],
          events := db.events + [Event(id, Some(t.attempt), TaskClaimed, Some(worker))],
          attempts := db.attempts[AttemptKey(id, t.attempt) := AttemptRow(worker, db.now, None, None, None)])
  }

  function GrantAll(db: Db, ids: seq<TaskId>, worker: WorkerId, ttl: nat): Db {
    if ids == [] then db else Grant(GrantAll(db, ids[..|ids| - 1], worker, ttl), ids[|ids| - 1], worker, ttl)
  }

  /** The attempt insert would violate the primary key: a duplicate execution. */
  predicate Duplicate(db: Db, ids: seq<TaskId>) {
    exists id <- ids :: id in db.tasks && AttemptKey(id, db.tasks[id].attempt + 1) in db.attempts
  }

  /** The whole call, in a number of rounds (`MAX_ROUNDS` in the code). */
  function ClaimTo(
    db: Db, worker: WorkerId, limit: nat, ttl: nat, caps: seq<string>, locked: set<TaskId>, rounds: nat): Db
  {
    var ids := ClaimWithin(db, caps, limit, locked, rounds);
    if Duplicate(db, ids) then db else GrantAll(db, ids, worker, ttl)
  }
}
