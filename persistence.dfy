/**
  The page's durable state: one `localStorage` slot under the key
  "resultadoAgua2025" holding the last record `calcular` produced, and the
  record the results panel currently shows. The record is stored as a value;
  its JSON form is not modelled.
 */
module Persistence {
  import opened Wrappers
  import opened JsNumber
  import opened Estimator

  /**
    The slot after a series of `calcular` calls (every input or click event
    runs one), given each call's outcome: a record overwrites the slot, a
    rejection (`None`) leaves it as it was.
   */
  function AfterCalls<T>(slot: Option<T>, outcomes: seq<Option<T>>): Option<T>
    decreases |outcomes|
  {
    if outcomes == [] then slot
    else AfterCalls(if outcomes[0].Some? then outcomes[0] else slot, outcomes[1..])
  }

  /** Call `i` produced a record and no later call did */
  predicate IsLastWrite<T>(outcomes: seq<Option<T>>, i: int) {
    0 <= i < |outcomes| && outcomes[i].Some?
    && forall j :: i < j < |outcomes| ==> outcomes[j].None?
  }

  /**
    Last write wins: after the calls the slot holds the record of the last
    accepted one, and what it held before when every call was rejected.
   */
  lemma {:induction false} LastWriteWins<T>(slot: Option<T>, outcomes: seq<Option<T>>)
    decreases |outcomes|
    ensures (forall i :: 0 <= i < |outcomes| ==> outcomes[i].None?) ==>
      AfterCalls(slot, outcomes) == slot
    ensures forall i :: IsLastWrite(outcomes, i) ==> AfterCalls(slot, outcomes) == outcomes[i]
  {
    if outcomes != [] {
      var next, rest := if outcomes[0].Some? then outcomes[0] else slot, outcomes[1..];
      LastWriteWins(next, rest);
      assert forall k :: 0 <= k < |rest| ==> rest[k] == outcomes[k + 1];
      forall i | IsLastWrite(outcomes, i)
        ensures AfterCalls(slot, outcomes) == outcomes[i]
      {
        if i > 0 {
          assert IsLastWrite(rest, i - 1);
        }
      }
    }
  }

  /** One more call extends the fold by one step */
  lemma {:induction false} AfterCallsAppend<T>(slot: Option<T>, outcomes: seq<Option<T>>, last: Option<T>)
    decreases |outcomes|
    ensures AfterCalls(slot, outcomes + [last]) == AfterCalls(AfterCalls(slot, outcomes), [last])
  {
    if outcomes != [] {
      var next := if outcomes[0].Some? then outcomes[0] else slot;
      assert (outcomes + [last])[1..] == outcomes[1..] + [last];
      AfterCallsAppend(next, outcomes[1..], last);
    }
  }

  /** The single slot: last write wins, no history */
  class ResultStore {
    var slot: Option<Record>

    /** A persistence scope in which nothing was ever saved */
    constructor ()
      ensures slot == None
    {
      slot := None;
    }

    /** `localStorage.setItem`: overwrites whatever was there */
    method Save(r: Record)
      modifies this
      ensures slot == Some(r)
    {
      slot := Some(r);
    }

    /** `JSON.parse(localStorage.getItem(...))`: the saved record, or nothing */
    method Load() returns (r: Option<Record>)
      ensures r == slot
    {
      r := slot;
    }
  }

  /** One lifetime of the page, from DOMContentLoaded on */
  class Page {
    const store: ResultStore
    /** The record in the results panel; `None` while the panel is hidden */
    var shown: Option<Record>
    /** What the slot held when the page loaded */
    ghost var loaded: Option<Record>
    /** The outcome of every `calcular` call since the page loaded, in order */
    ghost var calls: seq<Option<Record>>

    /** The slot is the fold of this page's calls over what it held at load */
    ghost predicate Valid()
      reads this, store
    {
      store.slot == AfterCalls(loaded, calls)
    }

    /** The panel shows exactly what is stored, as it does after loading */
    ghost predicate ShowsStored()
      reads this, store
    {
      shown == store.slot
    }

    /** Page load: a saved record is shown as it was stored, without recomputing it */
    constructor Open(store: ResultStore)
      ensures this.store == store && unchanged(store)
      ensures ShowsStored()
      ensures loaded == store.slot && calls == [] && Valid()
    {
      this.store := store;
      loaded := store.slot;
      calls := [];
      var saved := store.Load();
      shown := None;
      if saved.Some? {
        shown := saved;
      }
    }

    /**
      However many times `calcular` ran, the slot holds the record of the last
      accepted call, or what it held at load when every call was rejected.
     */
    lemma SlotHoldsLastAccepted()
      requires Valid()
      ensures (forall i :: 0 <= i < |calls| ==> calls[i].None?) ==> store.slot == loaded
      ensures forall i :: IsLastWrite(calls, i) ==> store.slot == calls[i]
    {
      LastWriteWins(loaded, calls);
    }

    /**
      `calcular`: on rejected input nothing is shown or saved; otherwise the
      record is shown and overwrites the stored one.
     */
    method Calcular(area: Num, lluvia: Num, coef: Num)
      modifies this, store
      ensures !Accepted(area, lluvia) ==> shown == old(shown) && store.slot == old(store.slot)
      ensures Accepted(area, lluvia) ==>
        shown == Estimate(area, lluvia, coef) && store.slot == shown
      ensures store.slot == AfterCalls(old(store.slot), [Estimate(area, lluvia, coef)])
      ensures old(ShowsStored()) ==> ShowsStored()
      ensures loaded == old(loaded) && calls == old(calls) + [Estimate(area, lluvia, coef)]
      ensures old(Valid()) ==> Valid()
    {
      var resultado := Estimate(area, lluvia, coef);
      AfterCallsAppend(loaded, calls, resultado);
      calls := calls + [resultado];
      if resultado.None? {
        return;
      }
      shown := resultado;
      store.Save(resultado.value);
    }
  }

  /**
    Calculating and then reloading the page shows the same panel again, and a
    fresh scope shows nothing on its first load.
   */
  method CalcularThenReload(area: Num, lluvia: Num, coef: Num)
    returns (first: Page, second: Page)
    ensures fresh(first) && fresh(second) && first.store == second.store
    ensures first.shown == (if Accepted(area, lluvia) then Estimate(area, lluvia, coef) else None)
    ensures second.shown == first.shown
  {
    var store := new ResultStore();
    first := new Page.Open(store);
    first.Calcular(area, lluvia, coef);
    second := new Page.Open(store);
  }
}
