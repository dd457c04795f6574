/**
 * The payload truncator of the flow tracer (core/logger.py, truncate_complex
 * and truncate_value). One running length counter is charged across a whole
 * value while lists, tuples and dicts are walked left to right; only scalars
 * are cut and marked.
 */
module Truncation {
  import opened Wrappers

  /** A Python value as truncate_complex sees it. A scalar is held as its
      rendering str(value); a dict key as the rendering of a scalar key. */
  datatype Value =
    | Scalar(text: string)
    | List(items: seq<Value>)
    | Tuple(items: seq<Value>)
    | Dict(entries: seq<(string, Value)>)

  /** What truncate_complex builds: strings, lists and dicts keyed by strings
      (a dict is kept in insertion order). */
  datatype Truncated =
    | TStr(text: string)
    | TList(items: seq<Truncated>)
    | TDict(entries: seq<(string, Truncated)>)

  /** An exception as the tracer records it: str(type(e)), str(e) and the
      formatted traceback, all opaque text. */
  datatype Exc = Exc(kind: string, message: string, traceback: string)

  const Marker: string := "...(truncated)"

  /** Budget truncate_value passes to truncate_complex. */
  const ValueMaxLength: nat := 1200

  function Max(a: int, b: int): int { if a < b then b else a }

  /** Python's slice s[:n] for any integer n, negative n counting from the end. */
  function PyPrefix(s: string, n: int): (r: string)
    ensures r <= s
    ensures n < 0 ==> |r| == Max(0, |s| + n)
    ensures 0 <= n ==> |r| == if n <= |s| then n else |s|
  {
    if n >= 0 then s[..if n <= |s| then n else |s|]
    else if |s| + n >= 0 then s[..|s| + n]
    else []
  }

  /** The scalar case: render, charge the full length, cut if over budget.
      The source slices with the negative index maxLength - counter. */
  function TruncateScalar(s: string, maxLength: nat, current: nat): (r: (string, nat))
    ensures r.1 == current + |s|
    ensures current + |s| <= maxLength ==> r.0 == s
    ensures current + |s| > maxLength ==> r.0 == s[..Max(0, maxLength - current)] + Marker
  {
    var counter := current + |s|;
    if counter > maxLength then (PyPrefix(s, maxLength - counter) + Marker, counter)
    else (s, counter)
  }

  /** truncate_complex(value, maxLength, current): the truncated value and the
      new counter. A container keeps its kind, except that a tuple becomes a list. */
  function Truncate(v: Value, maxLength: nat, current: nat): (r: (Truncated, nat))
    ensures r.1 >= current
    ensures v.Scalar? <==> r.0.TStr?
    ensures v.List? || v.Tuple? <==> r.0.TList?
    ensures v.Dict? <==> r.0.TDict?
    decreases v
  {
    match v
    case Scalar(s) =>
      var r := TruncateScalar(s, maxLength, current);
      (TStr(r.0), r.1)
    case List(xs) =>
      var r := TruncateItems(xs, maxLength, current);
      (TList(r.0), r.1)
    case Tuple(xs) =>
      var r := TruncateItems(xs, maxLength, current);
      (TList(r.0), r.1)
    case Dict(es) =>
      var r := TruncateEntries(es, maxLength, current);
      (TDict(InsertAll([], r.0)), r.1)
  }

  /** The list/tuple loop: an element is kept while the counter after it stays
      below the budget; the first one that reaches it is dropped and ends the loop. */
  function TruncateItems(xs: seq<Value>, maxLength: nat, current: nat): (r: (seq<Truncated>, nat))
    ensures r.1 >= current
    ensures |r.0| <= |xs|
    ensures |r.0| < |xs| ==> r.1 >= maxLength
    decreases xs
  {
    if xs == [] then ([], current)
    else
      var h := Truncate(xs[0], maxLength, current);
      if h.1 < maxLength then
        var rest := TruncateItems(xs[1..], maxLength, h.1);
        ([h.0] + rest.0, rest.1)
      else ([], h.1)
  }

  /** The dict loop, as the pairs it assigns in order: key and value are both
      charged before the check, and a kept entry's key is never cut. */
  function TruncateEntries(es: seq<(string, Value)>, maxLength: nat, current: nat)
    : (r: (seq<(string, Truncated)>, nat))
    ensures r.1 >= current
    ensures |r.0| <= |es|
    ensures |r.0| < |es| ==> r.1 >= maxLength
    ensures forall i :: 0 <= i < |r.0| ==> r.0[i].0 == es[i].0
    decreases es
  {
    if es == [] then ([], current)
    else
      var h := TruncateEntry(es[0], maxLength, current);
      if h.2 < maxLength then
        var rest := TruncateEntries(es[1..], maxLength, h.2);
        ([(h.0, h.1)] + rest.0, rest.1)
      else ([], h.2)
  }

  /** One dict entry: the key, then the value, charged to the counter. */
  function TruncateEntry(e: (string, Value), maxLength: nat, current: nat)
    : (r: (string, Truncated, nat))
    ensures r.2 >= current + |e.0|
    ensures r.2 <= maxLength ==> r.0 == e.0
    ensures current + |e.0| <= maxLength ==> r.0 == e.0
    ensures var v := Truncate(e.1, maxLength, current + |e.0|); r.1 == v.0 && r.2 == v.1
    decreases e
  {
    var key := TruncateScalar(e.0, maxLength, current);
    var value := Truncate(e.1, maxLength, key.1);
    (key.0, value.0, value.1)
  }

  function Keys<T>(d: seq<(string, T)>): (ks: seq<string>)
    ensures |ks| == |d|
    ensures forall i :: 0 <= i < |d| ==> ks[i] == d[i].0
  {
    if d == [] then [] else [d[0].0] + Keys(d[1..])
  }

  predicate DistinctKeys<T>(d: seq<(string, T)>) {
    forall i, j :: 0 <= i < j < |d| ==> d[i].0 != d[j].0
  }

  /** Python's d[k] = t on an insertion-ordered dict: an existing key keeps its
      place and takes the new value, a new key goes last. */
  function DictInsert(d: seq<(string, Truncated)>, k: string, t: Truncated)
    : (r: seq<(string, Truncated)>)
    ensures k !in Keys(d) ==> r == d + [(k, t)]
    ensures k in Keys(d) ==> Keys(r) == Keys(d)
    ensures k in Keys(d) ==> |r| == |d| && forall i :: 0 <= i < |d| && d[i].0 != k ==> r[i] == d[i]
    ensures (k, t) in r
  {
    if d == [] then [(k, t)]
    else if d[0].0 == k then [(k, t)] + d[1..]
    else [d[0]] + DictInsert(d[1..], k, t)
  }

  /** Assigning the pairs one after another. */
  function InsertAll(d: seq<(string, Truncated)>, ps: seq<(string, Truncated)>)
    : seq<(string, Truncated)>
    decreases ps
  {
    if ps == [] then d else InsertAll(DictInsert(d, ps[0].0, ps[0].1), ps[1..])
  }

  /** truncate_value as evidently intended: truncate_complex with budget 1200
      from an empty counter, keeping only the truncated value. */
  function IntendedTruncateValue(v: Value): Truncated {
    Truncate(v, ValueMaxLength, 0).0
  }

  /** truncate_value as written calls isinstance with one argument, which
      raises TypeError before anything is truncated. */
  const IsinstanceError: Exc :=
    Exc("<class 'TypeError'>", "isinstance expected 2 arguments, got 1", "")

  datatype Mode = Intended | AsWritten

  /** truncate_value under either reading; Err is the exception it raises. */
  function TruncateValue(mode: Mode, v: Value): Result<Truncated, Exc> {
    match mode
    case Intended => Ok(IntendedTruncateValue(v))
    case AsWritten => Err(IsinstanceError)
  }

  // ---------------------------------------------------------------------
  // Reference definitions: every element truncated in turn, with nothing
  // dropped, and the counter after each one.

  function ElementWise(xs: seq<Value>, maxLength: nat, current: nat): (r: seq<(Truncated, nat)>)
    ensures |r| == |xs|
  {
    if xs == [] then []
    else
      var h := Truncate(xs[0], maxLength, current);
      [h] + ElementWise(xs[1..], maxLength, h.1)
  }

  /** Per entry: its key, its truncated value, the counter after the key is
      charged, and the counter after key and value are both charged. */
  function EntryWise(es: seq<(string, Value)>, maxLength: nat, current: nat)
    : (r: seq<(string, Truncated, nat, nat)>)
    ensures |r| == |es|
  {
    if es == [] then []
    else
      var afterKey := current + |es[0].0|;
      var v := Truncate(es[0].1, maxLength, afterKey);
      [(es[0].0, v.0, afterKey, v.1)] + EntryWise(es[1..], maxLength, v.1)
  }

  /** The list loop keeps exactly the longest prefix of the element-wise
      results whose counters stay below the budget; the counter it returns is
      the one after the last element it looked at. */
  lemma {:induction false} ItemsArePrefix(xs: seq<Value>, maxLength: nat, current: nat)
    ensures var r := TruncateItems(xs, maxLength, current);
            var ew := ElementWise(xs, maxLength, current);
            (forall i :: 0 <= i < |r.0| ==> r.0[i] == ew[i].0 && ew[i].1 < maxLength) &&
            (|r.0| < |xs| ==> ew[|r.0|].1 >= maxLength && r.1 == ew[|r.0|].1) &&
            (|r.0| == |xs| ==> r.1 == if xs == [] then current else ew[|xs| - 1].1)
    decreases xs
  {
    if xs != [] {
      var h := Truncate(xs[0], maxLength, current);
      var ew := ElementWise(xs, maxLength, current);
      assert ew[0] == h;
      if h.1 < maxLength {
        ItemsArePrefix(xs[1..], maxLength, h.1);
        var rest := TruncateItems(xs[1..], maxLength, h.1);
        var ew' := ElementWise(xs[1..], maxLength, h.1);
        assert TruncateItems(xs, maxLength, current) == ([h.0] + rest.0, rest.1);
        assert ew == [h] + ew';
      }
    }
  }

  /** The dict loop keeps exactly the longest prefix of its entries whose
      counter, after charging key and then value, stays below the budget. */
  lemma {:induction false} EntriesArePrefix(es: seq<(string, Value)>, maxLength: nat, current: nat)
    ensures var r := TruncateEntries(es, maxLength, current);
            var ew := EntryWise(es, maxLength, current);
            (forall i :: 0 <= i < |r.0| ==>
               r.0[i] == (ew[i].0, ew[i].1) && ew[i].0 == es[i].0 && ew[i].3 < maxLength) &&
            (|r.0| < |es| ==> ew[|r.0|].3 >= maxLength && r.1 == ew[|r.0|].3) &&
            (|r.0| == |es| ==> r.1 == if es == [] then current else ew[|es| - 1].3)
    decreases es
  {
    if es != [] {
      var h := TruncateEntry(es[0], maxLength, current);
      var ew := EntryWise(es, maxLength, current);
      assert ew[0] == (es[0].0, h.1, current + |es[0].0|, h.2);
      if h.2 < maxLength {
        EntriesArePrefix(es[1..], maxLength, h.2);
        var rest := TruncateEntries(es[1..], maxLength, h.2);
        var ew' := EntryWise(es[1..], maxLength, h.2);
        assert TruncateEntries(es, maxLength, current) == ([(h.0, h.1)] + rest.0, rest.1);
        assert ew == [ew[0]] + ew';
      }
    }
  }

  lemma {:induction false} InsertAllFresh(d: seq<(string, Truncated)>, ps: seq<(string, Truncated)>)
    requires DistinctKeys(d + ps)
    ensures InsertAll(d, ps) == d + ps
    decreases ps
  {
    if ps != [] {
      var k := ps[0].0;
      assert k !in Keys(d) by {
        forall i | 0 <= i < |d| ensures Keys(d)[i] != k {
          assert (d + ps)[i] == d[i] && (d + ps)[|d|] == ps[0];
        }
      }
      var d' := d + [ps[0]];
      assert d' + ps[1..] == d + ps;
      InsertAllFresh(d', ps[1..]);
    }
  }

  /** When the dict's rendered keys are distinct, the result is exactly the
      kept prefix of its entries, with the keys as given. */
  lemma DictIsEntryPrefix(es: seq<(string, Value)>, maxLength: nat, current: nat)
    requires DistinctKeys(es)
    ensures var r := TruncateEntries(es, maxLength, current);
            Truncate(Dict(es), maxLength, current) == (TDict(r.0), r.1)
    ensures var ps := TruncateEntries(es, maxLength, current).0;
            Keys(ps) == Keys(es[..|ps|])
  {
    var ps := TruncateEntries(es, maxLength, current).0;
    assert DistinctKeys([] + ps) by {
      forall i, j | 0 <= i < j < |ps| ensures ps[i].0 != ps[j].0 {
        assert ps[i].0 == es[i].0 && ps[j].0 == es[j].0;
      }
      assert [] + ps == ps;
    }
    InsertAllFresh([], ps);
    assert [] + ps == ps;
  }

  predicate IsFlat(xs: seq<Value>) {
    forall i :: 0 <= i < |xs| ==> xs[i].Scalar?
  }

  function TextLength(xs: seq<Value>): nat
    requires IsFlat(xs)
  {
    if xs == [] then 0 else |xs[0].text| + TextLength(xs[1..])
  }

  /** A flat list of scalars keeps its first strings whole, and their total
      length plus the starting counter stays below the budget. */
  lemma {:induction false} FlatListWithinBudget(xs: seq<Value>, maxLength: nat, current: nat)
    requires IsFlat(xs)
    ensures var ks := TruncateItems(xs, maxLength, current).0;
            forall i :: 0 <= i < |ks| ==> ks[i] == TStr(xs[i].text)
    ensures var ks := TruncateItems(xs, maxLength, current).0;
            ks != [] ==> current + TextLength(xs[..|ks|]) < maxLength
    decreases xs
  {
    if xs != [] {
      var n := current + |xs[0].text|;
      assert xs[0] == Scalar(xs[0].text);
      if n < maxLength {
        assert IsFlat(xs[1..]) by {
          forall i | 0 <= i < |xs[1..]| ensures xs[1..][i].Scalar? { assert xs[1..][i] == xs[i + 1]; }
        }
        FlatListWithinBudget(xs[1..], maxLength, n);
        var ks := TruncateItems(xs, maxLength, current).0;
        var rest := TruncateItems(xs[1..], maxLength, n).0;
        assert Truncate(xs[0], maxLength, current) == (TStr(xs[0].text), n);
        assert ks == [TStr(xs[0].text)] + rest;
        assert xs[..|ks|][1..] == xs[1..][..|rest|];
        if rest == [] {
          assert xs[..|ks|] == [xs[0]];
          assert TextLength(xs[..|ks|]) == |xs[0].text| + TextLength([]);
        }
      }
    }
  }

  /** Corollary for the budget truncate_value uses: a flat list truncated from
      an empty counter keeps whole strings totalling fewer than 1200 characters. */
  lemma FlatValueWithinBudget(xs: seq<Value>)
    requires IsFlat(xs)
    ensures IntendedTruncateValue(List(xs)).TList?
    ensures var ks := IntendedTruncateValue(List(xs)).items;
            (forall i :: 0 <= i < |ks| ==> ks[i] == TStr(xs[i].text))
            && TextLength(xs[..|ks|]) < ValueMaxLength
  {
    FlatListWithinBudget(xs, ValueMaxLength, 0);
    var ks := IntendedTruncateValue(List(xs)).items;
    if ks == [] {
      assert xs[..0] == [];
    }
  }

  // ---------------------------------------------------------------------
  // The loop form of truncate_complex.

  /** truncate_complex as the source runs it: for loops over the items and
      entries, recursion on each element, one running counter. */
  method TruncateComplex(v: Value, maxLength: nat, current: nat) returns (t: Truncated, n: nat)
    ensures (t, n) == Truncate(v, maxLength, current)
    decreases v, 1
  {
    match v {
      case Scalar(s) =>
        var text;
        text, n := TruncateText(s, maxLength, current);
        t := TStr(text);
      case List(xs) =>
        var ks;
        ks, n := TruncateSequence(v, xs, maxLength, current);
        t := TList(ks);
      case Tuple(xs) =>
        var ks;
        ks, n := TruncateSequence(v, xs, maxLength, current);
        t := TList(ks);
      case Dict(es) =>
        var truncated: seq<(string, Truncated)> := [];
        var counter: nat := current;
        var i := 0;
        while i < |es|
          invariant 0 <= i <= |es|
          invariant InsertAll([], TruncateEntries(es, maxLength, current).0)
                 == InsertAll(truncated, TruncateEntries(es[i..], maxLength, counter).0)
          invariant TruncateEntries(es, maxLength, current).1
                 == TruncateEntries(es[i..], maxLength, counter).1
        {
          assert es[i] in es;
          var key, afterKey := TruncateText(es[i].0, maxLength, counter);
          var value, afterValue := TruncateComplex(es[i].1, maxLength, afterKey);
          assert es[i..][0] == es[i] && es[i..][1..] == es[i + 1..];
          ghost var before := counter;
          counter := afterValue;
          if counter < maxLength {
            truncated := DictInsert(truncated, key, value);
          } else {
            assert TruncateEntries(es[i..], maxLength, before) == ([], counter);
            break;
          }
          i := i + 1;
        }
        assert es[|es|..] == [];
        t, n := TDict(truncated), counter;
    }
  }

  /** The scalar branch of truncate_complex (also taken for every dict key). */
  method TruncateText(s: string, maxLength: nat, current: nat) returns (text: string, n: nat)
    ensures (text, n) == TruncateScalar(s, maxLength, current)
  {
    n := current + |s|;
    text := s;
    if n > maxLength {
      text := PyPrefix(s, maxLength - n) + Marker;
    }
  }

  /** The loop of truncate_complex over a list or tuple `v` with items `xs`. */
  method TruncateSequence(ghost v: Value, xs: seq<Value>, maxLength: nat, current: nat)
    returns (ks: seq<Truncated>, n: nat)
    requires v == List(xs) || v == Tuple(xs)
    ensures (ks, n) == TruncateItems(xs, maxLength, current)
    decreases v, 0
  {
    ks, n := [], current;
    var i := 0;
    while i < |xs|
      invariant 0 <= i <= |xs|
      invariant TruncateItems(xs, maxLength, current).0
             == ks + TruncateItems(xs[i..], maxLength, n).0
      invariant TruncateItems(xs, maxLength, current).1
             == TruncateItems(xs[i..], maxLength, n).1
    {
      assert xs[i] in xs;
      var item, counter := TruncateComplex(xs[i], maxLength, n);
      assert xs[i..][0] == xs[i] && xs[i..][1..] == xs[i + 1..];
      ghost var before := n;
      n := counter;
      if n < maxLength {
        ks := ks + [item];
      } else {
        assert TruncateItems(xs[i..], maxLength, before) == ([], n);
        assert ks + [] == ks;
        break;
      }
      i := i + 1;
    }
    assert xs[|xs|..] == [] && ks + [] == ks;
  }
}
