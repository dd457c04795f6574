// ClassWatcher from the prompt-history page: an edge-triggered watcher of
// one CSS class on one DOM node. The DOM is abstracted to the mutation
// records the observer delivers; each record carries whether the node has
// the watched class at the moment the record is read.

module ClassWatch {
  import opened Wrappers

  /** One MutationRecord: its `type`, its `attributeName` (null for
      non-attribute records) and what `target.classList.contains(...)`
      answers when the callback reads it. */
  datatype MutationRecord = MutationRecord(kind: string, attributeName: Option<string>, containsNow: bool)

  /** Which of the two user callbacks was invoked. */
  datatype Callback = Added | Removed

  /** The only records the watcher looks at. */
  predicate IsClassChange(m: MutationRecord) {
    m.kind == "attributes" && m.attributeName == Some("class")
  }

  /** The callback fired when the state changes to `now`. */
  function CallbackFor(now: bool): Callback {
    if now then Added else Removed
  }

  /** The state after one batch (`mutationsList`) and the callbacks fired
      while processing it, in order, starting from state `last`. */
  function Observe(last: bool, records: seq<MutationRecord>): (bool, seq<Callback>)
    decreases records
  {
    if records == [] then (last, [])
    else
      var m := records[0];
      if IsClassChange(m) && m.containsNow != last then
        var rest := Observe(m.containsNow, records[1..]);
        (rest.0, [CallbackFor(m.containsNow)] + rest.1)
      else
        Observe(last, records[1..])
  }

  /** The effect of one record read in state `last`: the new state and the
      callback it fires, if any. */
  function StepRecord(last: bool, m: MutationRecord): (bool, seq<Callback>) {
    if IsClassChange(m) && m.containsNow != last then (m.containsNow, [CallbackFor(m.containsNow)])
    else (last, [])
  }

  /** A batch is its first record followed by the rest. */
  lemma ObserveHead(last: bool, records: seq<MutationRecord>)
    requires records != []
    ensures var h := StepRecord(last, records[0]);
            var rest := Observe(h.0, records[1..]);
            Observe(last, records) == (rest.0, h.1 + rest.1)
  {
    var h := StepRecord(last, records[0]);
    var rest := Observe(h.0, records[1..]);
    if h.1 == [] {
      assert h.1 + rest.1 == rest.1;
    }
  }

  /** The records of the batch that the watcher does not skip. */
  function ClassChanges(records: seq<MutationRecord>): (r: seq<MutationRecord>)
    ensures |r| <= |records|
    ensures forall i :: 0 <= i < |r| ==> IsClassChange(r[i])
  {
    if records == [] then []
    else if IsClassChange(records[0]) then [records[0]] + ClassChanges(records[1..])
    else ClassChanges(records[1..])
  }

  /** Ignored records change neither state nor callbacks: only the class
      changes of the batch matter. */
  lemma {:induction false} IgnoredRecordsChangeNothing(last: bool, records: seq<MutationRecord>)
    ensures Observe(last, records) == Observe(last, ClassChanges(records))
    decreases records
  {
    if records != [] {
      IgnoredRecordsChangeNothing(last, records[1..]);
      IgnoredRecordsChangeNothing(records[0].containsNow, records[1..]);
      if IsClassChange(records[0]) {
        var r := ClassChanges(records);
        assert r[0] == records[0] && r[1..] == ClassChanges(records[1..]);
      }
    }
  }

  /** A batch with no class change leaves the watcher as it was. */
  lemma {:induction false} NoClassChangeNoCallback(last: bool, records: seq<MutationRecord>)
    requires forall i :: 0 <= i < |records| ==> !IsClassChange(records[i])
    ensures Observe(last, records) == (last, [])
    decreases records
  {
    if records != [] {
      assert forall i :: 0 <= i < |records[1..]| ==> records[1..][i] == records[i + 1];
      NoClassChangeNoCallback(last, records[1..]);
    }
  }

  /** Successive callbacks strictly alternate, the first being the opposite
      of the starting state, and the final state is the starting state
      flipped once per callback. So the i-th callback is the added one
      exactly when the state it moves to is true. */
  lemma {:induction false} CallbacksAlternate(last: bool, records: seq<MutationRecord>)
    ensures var r := Observe(last, records);
      (forall i :: 0 <= i < |r.1| ==> r.1[i] == CallbackFor(if i % 2 == 0 then !last else last)) &&
      (forall i :: 0 <= i < |r.1| ==> (r.1[i] == Added <==> (if i % 2 == 0 then !last else last))) &&
      r.0 == (if |r.1| % 2 == 0 then last else !last)
    decreases records
  {
    if records != [] {
      var m := records[0];
      if IsClassChange(m) && m.containsNow != last {
        CallbacksAlternate(m.containsNow, records[1..]);
        var rest := Observe(m.containsNow, records[1..]);
        var cbs := [CallbackFor(m.containsNow)] + rest.1;
        forall i | 0 <= i < |cbs|
          ensures cbs[i] == CallbackFor(if i % 2 == 0 then !last else last)
        {
          if i > 0 {
            assert cbs[i] == rest.1[i - 1];
          }
        }
      } else {
        CallbacksAlternate(last, records[1..]);
      }
    }
  }

  /** The final state is the reading of the last class-change record of the
      batch, or the starting state when there is none. */
  lemma {:induction false} FinalStateIsLastReading(last: bool, records: seq<MutationRecord>)
    ensures var cs := ClassChanges(records);
      Observe(last, records).0 == (if cs == [] then last else cs[|cs| - 1].containsNow)
    decreases records
  {
    if records != [] {
      var m := records[0];
      var cs := ClassChanges(records);
      var cr := ClassChanges(records[1..]);
      if IsClassChange(m) {
        assert cs == [m] + cr;
        assert Observe(last, records).0 == Observe(m.containsNow, records[1..]).0;
        FinalStateIsLastReading(m.containsNow, records[1..]);
        if cr != [] {
          assert cs[|cs| - 1] == cr[|cr| - 1];
        }
      } else {
        assert cs == cr;
        FinalStateIsLastReading(last, records[1..]);
      }
    }
  }

  /** Within one batch whose class changes all read the same state `now`,
      at most one callback fires, and it fires exactly when `now` differs
      from the starting state. */
  lemma {:induction false} OneCallbackPerBatch(last: bool, now: bool, records: seq<MutationRecord>)
    requires forall i :: 0 <= i < |records| && IsClassChange(records[i]) ==> records[i].containsNow == now
    ensures var r := Observe(last, records);
      (r.1 == [CallbackFor(now)] <==> now != last && ClassChanges(records) != []) &&
      (r.1 == [] <==> now == last || ClassChanges(records) == [])
    decreases records
  {
    if records != [] {
      var m := records[0];
      assert forall i :: 0 <= i < |records[1..]| ==> records[1..][i] == records[i + 1];
      if IsClassChange(m) {
        assert m.containsNow == now;
        if now != last {
          OneCallbackPerBatch(now, now, records[1..]);
        } else {
          OneCallbackPerBatch(last, now, records[1..]);
        }
        assert ClassChanges(records) != [];
      } else {
        OneCallbackPerBatch(last, now, records[1..]);
      }
    }
  }

  /** Two batches in a row act as their concatenation in one batch. */
  lemma {:induction false} BatchesCompose(last: bool, a: seq<MutationRecord>, b: seq<MutationRecord>)
    ensures var ra := Observe(last, a);
      var rb := Observe(ra.0, b);
      Observe(last, a + b) == (rb.0, ra.1 + rb.1)
    decreases a
  {
    if a == [] {
      assert a + b == b;
      assert Observe(last, a).1 + Observe(last, b).1 == Observe(last, b).1;
    } else {
      assert (a + b)[0] == a[0] && (a + b)[1..] == a[1..] + b;
      var m := a[0];
      if IsClassChange(m) && m.containsNow != last {
        BatchesCompose(m.containsNow, a[1..], b);
        var ra' := Observe(m.containsNow, a[1..]);
        var rb := Observe(ra'.0, b);
        assert [CallbackFor(m.containsNow)] + ra'.1 + rb.1 == [CallbackFor(m.containsNow)] + (ra'.1 + rb.1);
      } else {
        BatchesCompose(last, a[1..], b);
      }
    }
  }

  /** Regrouping a concatenation, stated once so the loop below does not
      have to rediscover it in its larger context. */
  lemma ConcatAssoc<T>(a: seq<T>, b: seq<T>, c: seq<T>)
    ensures a + (b + c) == (a + b) + c
  {
  }

  class ClassWatcher {
    const classToWatch: string
    var lastClassState: bool
    /** Every callback invoked so far, in order. */
    ghost var fired: seq<Callback>

    /** `targetHasClass` is whether the target node has the watched class
        when the watcher is created. */
    constructor (classToWatch: string, targetHasClass: bool)
      ensures this.classToWatch == classToWatch
      ensures lastClassState == targetHasClass && fired == []
    {
      this.classToWatch := classToWatch;
      lastClassState := targetHasClass;
      fired := [];
    }

    /** mutationCallback: one batch of records, in delivery order. */
    method MutationCallback(records: seq<MutationRecord>)
      modifies this
      ensures lastClassState == Observe(old(lastClassState), records).0
      ensures fired == old(fired) + Observe(old(lastClassState), records).1
    {
      ghost var emitted: seq<Callback> := [];
      var i := 0;
      assert records[i..] == records;
      assert emitted + Observe(lastClassState, records).1 == Observe(lastClassState, records).1;
      while i < |records|
        invariant 0 <= i <= |records|
        invariant fired == old(fired) + emitted
        invariant Observe(old(lastClassState), records).0 == Observe(lastClassState, records[i..]).0
        invariant Observe(old(lastClassState), records).1 == emitted + Observe(lastClassState, records[i..]).1
      {
        var mutation := records[i];
        assert records[i..][0] == mutation && records[i..][1..] == records[i + 1..];
        ghost var h := StepRecord(lastClassState, mutation);
        ObserveHead(lastClassState, records[i..]);
        if mutation.kind == "attributes" && mutation.attributeName == Some("class") {
          var currentClassState := mutation.containsNow;
          if lastClassState != currentClassState {
            lastClassState := currentClassState;
            if currentClassState {
              fired := fired + [Added];
            } else {
              fired := fired + [Removed];
            }
          }
        }
        assert lastClassState == h.0 && fired == old(fired) + emitted + h.1;
        ConcatAssoc(emitted, h.1, Observe(h.0, records[i + 1..]).1);
        emitted := emitted + h.1;
        i := i + 1;
      }
    }
  }
}
