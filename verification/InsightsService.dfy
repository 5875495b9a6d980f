/**
 One insights request as the service runs it: look up, take the lock, look up again, generate,
 validate, save, commit. What other requests have committed by the time the lock is granted and by
 the time of the commit is given, and so is what every call comes to.
 */
module InsightsService {
  import opened Wrappers
  import opened Texts
  import opened Documents
  import opened InsightsInput
  import opened InsightsValidation
  import opened InsightsCache

  datatype Answer = Answer(insights: Document, generatedAt: nat, cached: bool)

  datatype ServiceError = CallFailed | GenerationRejected

  datatype Script = Script(
    lookupFails: bool,
    lockFails: bool,                // BEGIN, or the wait for the lock runs out
    afterLock: Table,
    relookupFails: bool,
    generated: Option<Json>,        // None: the generator throws
    now: nat,
    saveFails: bool,
    beforeCommit: Table,
    commitFails: bool,
    commitLands: bool)              // a COMMIT that fails may have taken effect

  lemma UsableFits(table: Table, key: CacheKey, input: CompactInput)
    ensures Usable(table, key, input).Some? ==>
      var document := Usable(table, key, input).value.0; Validate(Encode(document), input) == Success(document)
  {
    if Usable(table, key, input).Some? { StoredDocumentRevalidates(table[key.month].document, input, input); }
  }

  lemma AcceptedFits(raw: Json, input: CompactInput)
    ensures Validate(raw, input).Success? ==> Validate(Encode(Validate(raw, input).value), input) == Validate(raw, input)
  {
    if Validate(raw, input).Success? { StoredDocumentRevalidates(raw, input, input); }
  }

  class MonthlyInsightsService {
    const model: Text
    const prompt: Text
    var table: Table

    constructor (model: Text, prompt: Text, table: Table)
      ensures this.model == model && this.prompt == prompt && this.table == table
    {
      this.model, this.prompt, this.table := model, prompt, table;
    }

    function Key(input: CompactInput): CacheKey { KeyFor(input, model, prompt) }

    function Row(input: CompactInput, script: Script): CacheRow
      requires Accepted(input, script)
    {
      CacheRow(Key(input), Encode(Validate(script.generated.value, input).value), script.now)
    }

    /** The lock was granted: the first look-up found nothing usable, and neither it nor the lock failed. */
    predicate Locks(before: Table, input: CompactInput, script: Script) {
      !script.lookupFails && Usable(before, Key(input), input).None? && !script.lockFails
    }

    /** Under the lock the second look-up found nothing usable either. */
    predicate Generates(before: Table, input: CompactInput, script: Script) {
      Locks(before, input, script) && !script.relookupFails && Usable(script.afterLock, Key(input), input).None?
    }

    predicate Accepted(input: CompactInput, script: Script) {
      script.generated.Some? && Validate(script.generated.value, input).Success?
    }

    /** A row was written, and the COMMIT asked for. */
    predicate Saves(before: Table, input: CompactInput, script: Script) {
      Generates(before, input, script) && Accepted(input, script) && !script.saveFails
    }

    /** The COMMIT asked for after a usable row was found under the lock, or one was written. */
    predicate AsksToCommit(before: Table, input: CompactInput, script: Script) {
      Saves(before, input, script) ||
      (Locks(before, input, script) && !script.relookupFails && Usable(script.afterLock, Key(input), input).Some?)
    }

    /**
     Every answer fits the request's own analytics. A row that is usable when looked up is the answer,
     and nothing is generated; an answer that was generated is in the table, and is usable there. A
     request that fails writes nothing, except one whose COMMIT of a row took effect all the same.
     */
    method GetMonthlyInsights(input: CompactInput, script: Script) returns (r: Result<Answer, ServiceError>, generated: bool)
      modifies this
      ensures r.Success? ==> Validate(Encode(r.value.insights), input) == Success(r.value.insights)
      ensures generated <==> Generates(old(table), input, script)
      ensures r.Success? <==>
        (!script.lookupFails && Usable(old(table), Key(input), input).Some?) ||
        (AsksToCommit(old(table), input, script) && !script.commitFails)
      ensures !script.lookupFails && Usable(old(table), Key(input), input).Some? ==>
        var hit := Usable(old(table), Key(input), input).value;
        r == Success(Answer(hit.0, hit.1, true))
      ensures Locks(old(table), input, script) && r.Success? && !generated ==>
        Usable(script.afterLock, Key(input), input) == Some((r.value.insights, r.value.generatedAt)) && r.value.cached
      ensures r.Success? && generated ==>
        && r.value == Answer(Validate(script.generated.value, input).value, script.now, false)
        && Usable(table, Key(input), input) == Some((r.value.insights, r.value.generatedAt))
      ensures table ==
        if !Locks(old(table), input, script) then old(table)
        else if Saves(old(table), input, script) && (!script.commitFails || script.commitLands)
          then script.beforeCommit[input.month := Row(input, script)]
        else if AsksToCommit(old(table), input, script) then script.beforeCommit
        else script.afterLock
    {
      generated := false;
      var lookup := Key(input);
      if script.lookupFails { return Failure(CallFailed), false; }
      var cached := Usable(table, lookup, input);
      UsableFits(table, lookup, input);
      UsableFits(script.afterLock, lookup, input);
      if script.generated.Some? { AcceptedFits(script.generated.value, input); }
      if cached.Some? { return Success(Answer(cached.value.0, cached.value.1, true)), false; }

      if script.lockFails { return Failure(CallFailed), false; }
      table := script.afterLock;
      if script.relookupFails { return Failure(CallFailed), false; }
      cached := Usable(table, lookup, input);
      var pending: Option<CacheRow> := None;
      var answer;
      if cached.Some? {
        answer := Answer(cached.value.0, cached.value.1, true);
      } else {
        generated := true;
        if script.generated.None? { return Failure(CallFailed), true; }
        var validated := Validate(script.generated.value, input);
        if validated.Failure? { return Failure(GenerationRejected), true; }
        if script.saveFails { return Failure(CallFailed), true; }
        pending := Some(CacheRow(lookup, Encode(validated.value), script.now));
        answer := Answer(validated.value, script.now, false);
      }

      table := script.beforeCommit;
      if pending.Some? && (!script.commitFails || script.commitLands) {
        table := table[input.month := pending.value];
      }
      r := if script.commitFails then Failure(CallFailed) else Success(answer);
    }
  }
}
