/**
 Idempotency keys across all mutating operations (src/store.rs, src/api.rs).

 Request hashes are taken as injective, so a hash is the request itself; the hash of an intent and that
 of any other operation never agree.
 */
module Idempotency {
  import opened Wrappers

  datatype Key = Key(actor: string, key: string)

  datatype Request = NewIntent(body: string) | Operation(operation: string, body: string)

  datatype Response = Response(resource: nat, detail: string)

  /** A row of intents, cancellations, reconciliation runs, backups or operator actions, and the call that made it. */
  datatype Resource = Resource(key: Key, request: Request, call: nat)

  datatype Record = Record(request: Request, response: Response)

  /** `records` is the table idempotency_keys with its primary key. */
  datatype Tables = Tables(resources: seq<Resource>, records: map<Key, Record>, ready: bool)

  datatype Refusal = IdempotencyConflict | NewRiskDisabled | UniqueViolation | NotFound

  // ---------------------------------------------------------------------------------------------
  // Transactions
  // ---------------------------------------------------------------------------------------------

  /** The intent row with this key, found by the UNIQUE(actor_id, idempotency_key) index. */
  function IntentOf(resources: seq<Resource>, key: Key): Option<Resource> {
    if resources == [] then None
    else
      var last := resources[|resources| - 1];
      if last.key == key && last.request.NewIntent? then Some(last) else IntentOf(resources[..|resources| - 1], key)
  }

  /** `replay_intent` and `idempotent_response`. */
  function Replay(t: Tables, key: Key, request: Request): Result<Option<Response>, Refusal> {
    if key !in t.records then Ok(None)
    else if request.NewIntent? && !t.records[key].request.NewIntent? then Ok(None)
    else if t.records[key].request != request then Err(IdempotencyConflict)
    else Ok(Some(t.records[key].response))
  }

  /** The rows a mutation adds, with its response recorded. */
  function Recorded(t: Tables, key: Key, request: Request, call: nat, detail: string): Tables {
    t.(resources := t.resources + [Resource(key, request, call)],
       records := t.records[key := Record(request, Response(|t.resources|, detail))])
  }

  /** `admit_intent`; the second INSERT fails when another operation owns the key. */
  function AfterAdmission(t: Tables, key: Key, body: string, call: nat, detail: string): Result<(Tables, Response),
            Refusal> {
    var existing := IntentOf(t.resources, key);
    if existing.Some? then
      if existing.value.request != NewIntent(body) then Err(IdempotencyConflict)
      else if key !in t.records || !t.records[key].request.NewIntent? then Err(NotFound)
      else Ok((t, t.records[key].response))
    else if !t.ready then Err(NewRiskDisabled)
    else if key in t.records then Err(UniqueViolation)
    else Ok((Recorded(t, key, NewIntent(body), call, detail), Response(|t.resources|, detail)))
  }

  /** Any other mutation: its effect, then `insert_idempotency_record`, in one transaction. */
  function AfterOperation(t: Tables, key: Key, operation: string, body: string, call: nat, detail: string, ready: bool)
    : Result<(Tables, Response), Refusal>
  {
    if key in t.records then Err(IdempotencyConflict)
    else Ok((Recorded(t, key, Operation(operation, body), call, detail).(ready := ready), Response(|t.resources|, detail)))
  }

  /** The tables as the store changes them. */
  class IdempotentStore {
    var resources: seq<Resource>
    var records: map<Key, Record>
    var ready: bool

    function View(): Tables
      reads this
    {
      Tables(resources, records, ready)
    }

    constructor ()
      ensures View() == Tables([], map[], false)
    {
      resources, records, ready := [], map[], false;
    }

    method FindIntent(key: Key) returns (found: Option<Resource>)
      ensures found == IntentOf(resources, key)
    {
      var k := |resources|;
      assert resources[..k] == resources;
      while k > 0
        invariant k <= |resources| && IntentOf(resources, key) == IntentOf(resources[..k], key)
      {
        assert resources[..k][..k - 1] == resources[..k - 1];
        k := k - 1;
        if resources[k].key == key && resources[k].request.NewIntent? {
          return Some(resources[k]);
        }
      }
      found := None;
    }

    /** Both rows are inserted before the commit; a conflict of the second rolls the first back. */
    method AdmitIntent(key: Key, body: string, call: nat, detail: string) returns (result: Result<Response, Refusal>)
      modifies this
      ensures var after := AfterAdmission(old(View()), key, body, call, detail);
        && View() == (if after.Ok? then after.value.0 else old(View()))
        && result == (if after.Ok? then Ok(after.value.1) else Err(after.error))
    {
      var existing := FindIntent(key);
      if existing.Some? {
        if existing.value.request != NewIntent(body) {
          return Err(IdempotencyConflict);
        }
        if key !in records || !records[key].request.NewIntent? {
          return Err(NotFound);
        }
        return Ok(records[key].response);
      }
      if !ready {
        return Err(NewRiskDisabled);
      }
      var savepoint, id := resources, |resources|;
      resources := resources + [Resource(key, NewIntent(body), call)];
      if key in records {
        resources := savepoint;
        return Err(UniqueViolation);
      }
      records := records[key := Record(NewIntent(body), Response(id, detail))];
      result := Ok(Response(id, detail));
    }

    method Operate(key: Key, operation: string, body: string, call: nat, detail: string, next: bool)
      returns (result: Result<Response, Refusal>)
      modifies this
      ensures var after := AfterOperation(old(View()), key, operation, body, call, detail, next);
        && View() == (if after.Ok? then after.value.0 else old(View()))
        && result == (if after.Ok? then Ok(after.value.1) else Err(after.error))
    {
      var savepoint, readiness, id := resources, ready, |resources|;
      ready := next;
      resources := resources + [Resource(key, Operation(operation, body), call)];
      if key in records {
        resources, ready := savepoint, readiness;
        return Err(IdempotencyConflict);
      }
      records := records[key := Record(Operation(operation, body), Response(id, detail))];
      result := Ok(Response(id, detail));
    }
  }

  // ---------------------------------------------------------------------------------------------
  // Interleaved requests
  // ---------------------------------------------------------------------------------------------

  datatype Stage = Arrived | Checked | Succeeded(response: Response) | Refused

  /** One HTTP request: it looks for a recorded response, then mutates in a later transaction. */
  datatype Call = Call(key: Key, request: Request, stage: Stage)

  datatype World = World(tables: Tables, calls: seq<Call>)

  datatype Step =
    | Arrive(key: Key, request: Request)
    | Check(call: nat)
    | Execute(call: nat, detail: string, ready: bool)
    | GiveUp(call: nat)
    | SetReady(ready: bool)

  function Settle(w: World, c: nat, stage: Stage): World
    requires c < |w.calls|
  {
    w.(calls := w.calls[c := w.calls[c].(stage := stage)])
  }

  function Mutate(t: Tables, call: Call, c: nat, detail: string, ready: bool): Result<(Tables, Response), Refusal> {
    match call.request
    case NewIntent(body) => AfterAdmission(t, call.key, body, c, detail)
    case Operation(operation, body) => AfterOperation(t, call.key, operation, body, c, detail, ready)
  }

  function Fire(w: World, step: Step): Option<World> {
    match step
    case Arrive(key, request) => Some(w.(calls := w.calls + [Call(key, request, Arrived)]))
    case Check(c) =>
      if c >= |w.calls| || !w.calls[c].stage.Arrived? then None
      else
        Some(match Replay(w.tables, w.calls[c].key, w.calls[c].request)
             case Err(_) => Settle(w, c, Refused)
             case Ok(None) => Settle(w, c, Checked)
             case Ok(Some(response)) => Settle(w, c, Succeeded(response)))
    case Execute(c, detail, ready) =>
      if c >= |w.calls| || !w.calls[c].stage.Checked? then None
      else
        Some(match Mutate(w.tables, w.calls[c], c, detail, ready)
             case Err(_) => Settle(w, c, Refused)
             case Ok((tables, response)) => Settle(w.(tables := tables), c, Succeeded(response)))
    case GiveUp(c) => if c < |w.calls| && w.calls[c].stage.Checked? then Some(Settle(w, c, Refused)) else None
    case SetReady(ready) => Some(w.(tables := w.tables.(ready := ready)))
  }

  ghost predicate Run(worlds: seq<World>, steps: seq<Step>) {
    && |worlds| == |steps| + 1
    && worlds[0].tables.resources == [] && worlds[0].tables.records == map[] && worlds[0].calls == []
    && forall k {:trigger steps[k]} | 0 <= k < |steps| :: Fire(worlds[k], steps[k]) == Some(worlds[k + 1])
  }

  /** Every resource is the recorded one of its key, and every record has its resource. */
  ghost predicate Recording(t: Tables) {
    && (forall i | 0 <= i < |t.resources| ::
          var r := t.resources[i];
          r.key in t.records && t.records[r.key].request == r.request && t.records[r.key].response.resource == i)
    && (forall key | key in t.records ::
          var i := t.records[key].response.resource;
          i < |t.resources| && t.resources[i].key == key)
  }

  predicate Answered(t: Tables, call: Call) {
    call.stage.Succeeded? ==>
      call.key in t.records && t.records[call.key] == Record(call.request, call.stage.response)
  }

  /** Only a call that has succeeded has made anything. */
  predicate MadeBySuccess(w: World, r: Resource) {
    r.call < |w.calls| && w.calls[r.call].stage.Succeeded?
  }

  ghost predicate Inv(w: World) {
    && Recording(w.tables)
    && (forall c | 0 <= c < |w.calls| :: Answered(w.tables, w.calls[c]))
    && (forall i | 0 <= i < |w.tables.resources| :: MadeBySuccess(w, w.tables.resources[i]))
  }

  lemma {:induction false} IntentOfFinds(resources: seq<Resource>, key: Key)
    ensures IntentOf(resources, key).Some? ==>
      exists i | 0 <= i < |resources| :: resources[i] == IntentOf(resources, key).value && resources[i].key == key
  {
    if resources != [] {
      IntentOfFinds(resources[..|resources| - 1], key);
    }
  }

  lemma RecordedKeeps(t: Tables, key: Key, request: Request, call: nat, detail: string)
    requires Recording(t) && key !in t.records
    ensures Recording(Recorded(t, key, request, call, detail))
    ensures t.records.Keys <= Recorded(t, key, request, call, detail).records.Keys
    ensures forall k | k in t.records :: Recorded(t, key, request, call, detail).records[k] == t.records[k]
  {
  }

  lemma MutateKeeps(t: Tables, call: Call, c: nat, detail: string, ready: bool)
    requires Recording(t) && Mutate(t, call, c, detail, ready).Ok?
    ensures var (next, response) := Mutate(t, call, c, detail, ready).value;
      && Recording(next) && t.records.Keys <= next.records.Keys
      && (forall k | k in t.records :: next.records[k] == t.records[k])
      && call.key in next.records && next.records[call.key] == Record(call.request, response)
      && (next.resources == t.resources || next.resources == t.resources + [Resource(call.key, call.request, c)])
  {
    match call.request {
      case NewIntent(body) =>
        IntentOfFinds(t.resources, call.key);
        if call.key !in t.records {
          RecordedKeeps(t, call.key, call.request, c, detail);
        }
      case Operation(operation, body) =>
        RecordedKeeps(t, call.key, call.request, c, detail);
    }
  }

  lemma SettleKeepsInv(w: World, c: nat, tables: Tables, stage: Stage)
    requires Inv(w) && c < |w.calls| && !w.calls[c].stage.Succeeded?
    requires Recording(tables) && w.tables.records.Keys <= tables.records.Keys
    requires forall k | k in w.tables.records :: tables.records[k] == w.tables.records[k]
    requires tables.resources == w.tables.resources
      || (stage.Succeeded? && tables.resources == w.tables.resources + [Resource(w.calls[c].key, w.calls[c].request, c)])
    requires Answered(tables, w.calls[c].(stage := stage))
    ensures Inv(Settle(w.(tables := tables), c, stage))
  {
    var next := Settle(w.(tables := tables), c, stage);
    forall i | 0 <= i < |next.calls| ensures Answered(tables, next.calls[i]) {
      assert Answered(w.tables, w.calls[i]);
    }
    forall i | 0 <= i < |tables.resources| ensures MadeBySuccess(next, tables.resources[i]) {
      if i < |w.tables.resources| {
        assert MadeBySuccess(w, w.tables.resources[i]);
      }
    }
  }

  lemma ExecuteKeepsInv(w: World, c: nat, detail: string, ready: bool)
    requires Inv(w) && Fire(w, Execute(c, detail, ready)).Some?
    ensures Inv(Fire(w, Execute(c, detail, ready)).value)
  {
    if Mutate(w.tables, w.calls[c], c, detail, ready).Ok? {
      MutateKeeps(w.tables, w.calls[c], c, detail, ready);
      var (tables, response) := Mutate(w.tables, w.calls[c], c, detail, ready).value;
      SettleKeepsInv(w, c, tables, Succeeded(response));
    } else {
      SettleKeepsInv(w, c, w.tables, Refused);
    }
  }

  lemma ArriveKeepsInv(w: World, call: Call)
    requires Inv(w) && call.stage.Arrived?
    ensures Inv(w.(calls := w.calls + [call]))
  {
    var next := w.(calls := w.calls + [call]);
    forall i | 0 <= i < |next.calls| ensures Answered(next.tables, next.calls[i]) {
      if i < |w.calls| {
        assert Answered(w.tables, w.calls[i]);
      }
    }
    forall i | 0 <= i < |next.tables.resources| ensures MadeBySuccess(next, next.tables.resources[i]) {
      assert MadeBySuccess(w, w.tables.resources[i]);
    }
  }

  lemma ReadyKeepsInv(w: World, ready: bool)
    requires Inv(w)
    ensures Inv(w.(tables := w.tables.(ready := ready)))
  {
    var next := w.(tables := w.tables.(ready := ready));
    forall i | 0 <= i < |next.calls| ensures Answered(next.tables, next.calls[i]) {
      assert Answered(w.tables, w.calls[i]);
    }
    forall i | 0 <= i < |next.tables.resources| ensures MadeBySuccess(next, next.tables.resources[i]) {
      assert MadeBySuccess(w, w.tables.resources[i]);
    }
  }

  lemma CheckKeepsInv(w: World, c: nat)
    requires Inv(w) && Fire(w, Check(c)).Some?
    ensures Inv(Fire(w, Check(c)).value)
  {
    var call := w.calls[c];
    match Replay(w.tables, call.key, call.request) {
      case Err(_) => SettleKeepsInv(w, c, w.tables, Refused);
      case Ok(None) => SettleKeepsInv(w, c, w.tables, Checked);
      case Ok(Some(response)) => SettleKeepsInv(w, c, w.tables, Succeeded(response));
    }
  }

  lemma FireKeepsInv(w: World, step: Step)
    requires Inv(w) && Fire(w, step).Some?
    ensures Inv(Fire(w, step).value)
  {
    match step {
      case Arrive(key, request) =>
        ArriveKeepsInv(w, Call(key, request, Arrived));
      case Check(c) =>
        CheckKeepsInv(w, c);
      case Execute(c, detail, ready) =>
        ExecuteKeepsInv(w, c, detail, ready);
      case GiveUp(c) =>
        SettleKeepsInv(w, c, w.tables, Refused);
      case SetReady(ready) =>
        ReadyKeepsInv(w, ready);
    }
  }

  lemma {:induction false} RunKeepsInv(worlds: seq<World>, steps: seq<Step>, k: nat)
    requires Run(worlds, steps) && k < |worlds|
    ensures Inv(worlds[k])
  {
    if k > 0 {
      RunKeepsInv(worlds, steps, k - 1);
      assert Fire(worlds[k - 1], steps[k - 1]) == Some(worlds[k]);
      FireKeepsInv(worlds[k - 1], steps[k - 1]);
    }
  }

  /** Over every interleaving, a key makes at most one resource, whatever the operations that carry it. */
  lemma KeyMakesOneResource(worlds: seq<World>, steps: seq<Step>, k: nat, i: nat, j: nat)
    requires Run(worlds, steps) && k < |worlds|
    requires i < |worlds[k].tables.resources| && j < |worlds[k].tables.resources|
    requires worlds[k].tables.resources[i].key == worlds[k].tables.resources[j].key
    ensures i == j
  {
    RunKeepsInv(worlds, steps, k);
  }

  /** Two successes with one key answered the same request with the same response. */
  lemma SuccessesAgree(worlds: seq<World>, steps: seq<Step>, k: nat, c: nat, d: nat)
    requires Run(worlds, steps) && k < |worlds| && c < |worlds[k].calls| && d < |worlds[k].calls|
    requires worlds[k].calls[c].key == worlds[k].calls[d].key
    requires worlds[k].calls[c].stage.Succeeded? && worlds[k].calls[d].stage.Succeeded?
    ensures worlds[k].calls[c].request == worlds[k].calls[d].request
    ensures worlds[k].calls[c].stage.response == worlds[k].calls[d].stage.response
  {
    RunKeepsInv(worlds, steps, k);
    assert Answered(worlds[k].tables, worlds[k].calls[c]) && Answered(worlds[k].tables, worlds[k].calls[d]);
  }

  /** A refused request has made nothing, and the step that refused it changed no table. */
  lemma RefusalsLeaveNothing(worlds: seq<World>, steps: seq<Step>, k: nat, c: nat)
    requires Run(worlds, steps) && k < |steps| && c < |worlds[k].calls| && c < |worlds[k + 1].calls|
    requires !worlds[k].calls[c].stage.Refused? && worlds[k + 1].calls[c].stage.Refused?
    ensures worlds[k + 1].tables == worlds[k].tables
    ensures forall r | r in worlds[k + 1].tables.resources :: r.call != c
  {
    RunKeepsInv(worlds, steps, k + 1);
    assert Fire(worlds[k], steps[k]) == Some(worlds[k + 1]);
    forall r | r in worlds[k + 1].tables.resources ensures r.call != c {
      assert MadeBySuccess(worlds[k + 1], r);
    }
  }

  /** Once a call has succeeded, another request with its key can only end refused. */
  lemma DifferentRequestIsRefused(worlds: seq<World>, steps: seq<Step>, k: nat, c: nat, d: nat)
    requires Run(worlds, steps) && k < |worlds| && c < |worlds[k].calls| && d < |worlds[k].calls|
    requires worlds[k].calls[c].key == worlds[k].calls[d].key && worlds[k].calls[c].stage.Succeeded?
    requires worlds[k].calls[c].request != worlds[k].calls[d].request
    ensures !worlds[k].calls[d].stage.Succeeded?
    ensures forall detail, ready :: Mutate(worlds[k].tables, worlds[k].calls[d], d, detail, ready).Err?
  {
    RunKeepsInv(worlds, steps, k);
    var w := worlds[k];
    assert Answered(w.tables, w.calls[c]) && Answered(w.tables, w.calls[d]);
    forall detail, ready ensures Mutate(w.tables, w.calls[d], d, detail, ready).Err? {
      if Mutate(w.tables, w.calls[d], d, detail, ready).Ok? {
        MutateKeeps(w.tables, w.calls[d], d, detail, ready);
        assert false;
      }
    }
  }

  // ---------------------------------------------------------------------------------------------
  // Repeats and first requests
  // ---------------------------------------------------------------------------------------------

  lemma {:induction false} IntentOfMisses(resources: seq<Resource>, key: Key)
    ensures IntentOf(resources, key).None? ==>
      forall i | 0 <= i < |resources| :: !(resources[i].key == key && resources[i].request.NewIntent?)
    ensures IntentOf(resources, key).Some? ==> IntentOf(resources, key).value.request.NewIntent?
  {
    if resources != [] {
      IntentOfMisses(resources[..|resources| - 1], key);
    }
  }

  /**
   Once a call has succeeded, a repeat of it is answered with the same response and changes no table, whether
   it finds the record when it looks or, for an intent, only when it mutates.
   */
  lemma RepeatIsAnswered(worlds: seq<World>, steps: seq<Step>, k: nat, c: nat, d: nat)
    requires Run(worlds, steps) && k < |worlds| && c < |worlds[k].calls| && d < |worlds[k].calls| && c != d
    requires worlds[k].calls[c].stage.Succeeded?
    requires worlds[k].calls[d].key == worlds[k].calls[c].key && worlds[k].calls[d].request == worlds[k].calls[c].request
    ensures var w := worlds[k];
      var answered := w.(calls := w.calls[d := w.calls[d].(stage := w.calls[c].stage)]);
      && (w.calls[d].stage.Arrived? ==> Fire(w, Check(d)) == Some(answered))
      && (w.calls[d].stage.Checked? && w.calls[d].request.NewIntent? ==>
            forall detail, ready :: Fire(w, Execute(d, detail, ready)) == Some(answered))
  {
    RunKeepsInv(worlds, steps, k);
    var w := worlds[k];
    assert Answered(w.tables, w.calls[c]);
    if w.calls[d].stage.Arrived? {
      RepeatIsReplayed(w, d, w.calls[c].stage.response);
    }
    if w.calls[d].stage.Checked? && w.calls[d].request.NewIntent? {
      forall detail, ready
        ensures Fire(w, Execute(d, detail, ready)) == Some(w.(calls := w.calls[d := w.calls[d].(stage := w.calls[c].stage)]))
      {
        RepeatIsAdmitted(w, d, w.calls[c].stage.response, detail, ready);
      }
    }
  }

  lemma RepeatIsReplayed(w: World, d: nat, response: Response)
    requires d < |w.calls| && w.calls[d].stage.Arrived? && w.calls[d].key in w.tables.records
    requires w.tables.records[w.calls[d].key] == Record(w.calls[d].request, response)
    ensures Fire(w, Check(d)) == Some(w.(calls := w.calls[d := w.calls[d].(stage := Succeeded(response))]))
  {
  }

  lemma RepeatIsAdmitted(w: World, d: nat, response: Response, detail: string, ready: bool)
    requires Recording(w.tables) && d < |w.calls| && w.calls[d].stage.Checked? && w.calls[d].request.NewIntent?
    requires w.calls[d].key in w.tables.records
    requires w.tables.records[w.calls[d].key] == Record(w.calls[d].request, response)
    ensures Fire(w, Execute(d, detail, ready)) == Some(w.(calls := w.calls[d := w.calls[d].(stage := Succeeded(response))]))
  {
    RecordedIntentIsFound(w.tables, w.calls[d].key);
  }

  lemma RecordedIntentIsFound(t: Tables, key: Key)
    requires Recording(t) && key in t.records && t.records[key].request.NewIntent?
    ensures IntentOf(t.resources, key).Some? && IntentOf(t.resources, key).value.request == t.records[key].request
  {
    var i := t.records[key].response.resource;
    assert t.resources[i].key == key && t.resources[i].request == t.records[key].request;
    IntentOfMisses(t.resources, key);
    IntentOfFinds(t.resources, key);
  }

  /** A first request is answered exactly when it is an operation or the service is READY, and it makes one resource. */
  lemma FirstRequestIsAnsweredIff(worlds: seq<World>, steps: seq<Step>, k: nat, d: nat, detail: string, ready: bool)
    requires Run(worlds, steps) && k < |worlds| && d < |worlds[k].calls| && worlds[k].calls[d].stage.Checked?
    requires worlds[k].calls[d].key !in worlds[k].tables.records
    ensures Fire(worlds[k], Execute(d, detail, ready)).Some?
    ensures var (w, v) := (worlds[k], Fire(worlds[k], Execute(d, detail, ready)).value);
      var call := w.calls[d];
      var response := Response(|w.tables.resources|, detail);
      if call.request.NewIntent? && !w.tables.ready then v == w.(calls := w.calls[d := call.(stage := Refused)])
      else
        && v.calls == w.calls[d := call.(stage := Succeeded(response))]
        && v.tables.resources == w.tables.resources + [Resource(call.key, call.request, d)]
        && v.tables.records == w.tables.records[call.key := Record(call.request, response)]
  {
    RunKeepsInv(worlds, steps, k);
    var w := worlds[k];
    IntentOfFinds(w.tables.resources, w.calls[d].key);
  }
}
