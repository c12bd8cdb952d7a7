/**
 * The order of a report: the missing required names in `required` order,
 * then one entry per reporting property in declaration order; an array's
 * entry lists its failing items in item order.
 *
 * Each accumulation is described by an image: the entries, empty or of
 * length one, that position `k` of the input would contribute. The report
 * is then the non-empty ones, picked from left to right.
 */
module ReportOrder {
  import opened Values
  import opened Schemas
  import opened Reports
  import opened Validator

  predicate Increasing(idx: seq<nat>) {
    forall i, j :: 0 <= i < j < |idx| ==> idx[i] < idx[j]
  }

  /** The positions of the non-empty contributions in `img`, left to right. */
  function Positions<T>(img: seq<seq<T>>): (idx: seq<nat>)
  {
    if img == [] then []
    else
      var prior := Positions(img[..|img| - 1]);
      if img[|img| - 1] != [] then prior + [|img| - 1] else prior
  }

  /** `r` consists of the single entries of `img` at the positions `idx`, in that order. */
  predicate Traces<T(==)>(r: seq<T>, idx: seq<nat>, img: seq<seq<T>>) {
    |r| == |idx| && forall j :: 0 <= j < |idx| ==> idx[j] < |img| && img[idx[j]] == [r[j]]
  }

  /** `Positions` lists every non-empty position once, in increasing order, and nothing else. */
  lemma {:induction false} PositionsSelect<T>(img: seq<seq<T>>)
    ensures var idx := Positions(img);
      && Increasing(idx)
      && (forall j :: 0 <= j < |idx| ==> idx[j] < |img|)
      && (forall k :: 0 <= k < |img| ==> (k in idx <==> img[k] != []))
  {
    if img != [] {
      var init := img[..|img| - 1];
      var last := img[|img| - 1];
      PositionsSelect(init);
      var prior := Positions(init);
      var idx := Positions(img);
      forall k | 0 <= k < |img|
        ensures k in idx <==> img[k] != []
      {
        if k < |init| {
          assert img[k] == init[k];
          assert k in idx <==> k in prior;
        }
      }
    }
  }

  lemma TracesExtend<T>(r: seq<T>, img: seq<seq<T>>, e: seq<T>)
    requires Traces(r, Positions(img), img) && |e| <= 1
    ensures Traces(r + e, Positions(img + [e]), img + [e])
  {
    var img' := img + [e];
    assert img'[..|img'| - 1] == img;
    var idx := Positions(img);
    var idx' := Positions(img');
    var r' := r + e;
    forall j | 0 <= j < |idx'|
      ensures idx'[j] < |img'| && img'[idx'[j]] == [r'[j]]
    {
      if j < |idx| {
        assert idx'[j] == idx[j] && r'[j] == r[j];
      }
    }
  }

  /** What each of `required[..n]` would contribute: its name when missing. */
  function RequiredImage(required: seq<string>, payload: Value, n: nat): (img: seq<Report>)
    requires n <= |required| && (n == 0 || !Nullish(payload))
    ensures |img| == n
    ensures forall k :: 0 <= k < n ==>
      img[k] == if Missing(payload, required[k]) then [Name(required[k])] else []
  {
    seq(n, k requires 0 <= k < n => if Missing(payload, required[k]) then [Name(required[k])] else [])
  }

  /** What each of `s.properties[..n]` contributes. */
  function EntryImage(s: ObjectSchema, payload: Value, n: nat, parses: Value -> bool): (img: seq<Report>)
    requires n <= |s.properties| && Safe(s, payload)
    ensures |img| == n
    ensures forall k :: 0 <= k < n ==> img[k] == PropertyEntry(s.properties[k], payload, parses)
  {
    seq(n, k requires 0 <= k < n =>
      assert s.properties[k] in s.properties; PropertyEntry(s.properties[k], payload, parses))
  }

  /** What each of `elems[..n]` would contribute: its report, nested, when non-empty. */
  function ItemImage(items: ObjectSchema, elems: seq<Value>, n: nat, parses: Value -> bool): (img: seq<Report>)
    requires n <= |elems| && forall x | x in elems :: Safe(items, x)
    ensures |img| == n
    ensures forall k :: 0 <= k < n ==>
      img[k] == Nest(Validate(items, elems[k], parses))
  {
    seq(n, k requires 0 <= k < n =>
      assert elems[k] in elems;
      Nest(Validate(items, elems[k], parses)))
  }

  lemma ItemImageGrows(items: ObjectSchema, elems: seq<Value>, n: nat, parses: Value -> bool)
    requires 0 < n <= |elems| && forall x | x in elems :: Safe(items, x)
    ensures var img := ItemImage(items, elems, n, parses);
      && img == ItemImage(items, elems, n - 1, parses) + [img[n - 1]]
      && ItemReports(items, elems, n, parses) == ItemReports(items, elems, n - 1, parses) + img[n - 1]
  {
    assert elems[n - 1] in elems;
  }

  /** The required-field errors are the names of the missing required
      fields, in `required` order. */
  lemma {:induction false} RequiredErrorsInOrder(required: seq<string>, payload: Value, n: nat)
    requires n <= |required| && (n == 0 || !Nullish(payload))
    ensures var img := RequiredImage(required, payload, n);
      Traces(RequiredErrors(required, payload, n), Positions(img), img)
  {
    if n > 0 {
      RequiredErrorsInOrder(required, payload, n - 1);
      var img := RequiredImage(required, payload, n);
      var prior := RequiredImage(required, payload, n - 1);
      assert img == prior + [img[n - 1]];
      TracesExtend(RequiredErrors(required, payload, n - 1), prior, img[n - 1]);
    }
  }

  /** The type errors are the entries of the reporting properties, in
      declaration order. */
  lemma {:induction false} DataTypeErrorsInOrder(s: ObjectSchema, payload: Value, n: nat, parses: Value -> bool)
    requires n <= |s.properties| && Safe(s, payload)
    ensures var img := EntryImage(s, payload, n, parses);
      Traces(DataTypeErrors(s, payload, n, parses), Positions(img), img)
  {
    if n > 0 {
      DataTypeErrorsInOrder(s, payload, n - 1, parses);
      var p := s.properties[n - 1];
      assert p in s.properties;
      var prior := EntryImage(s, payload, n - 1, parses);
      assert EntryImage(s, payload, n, parses) == prior + [PropertyEntry(p, payload, parses)];
      TracesExtend(DataTypeErrors(s, payload, n - 1, parses), prior, PropertyEntry(p, payload, parses));
    }
  }

  /** An array's entry lists the reports of exactly the failing items, in
      item order, each nested once. */
  lemma {:induction false} ItemReportsInOrder(items: ObjectSchema, elems: seq<Value>, n: nat, parses: Value -> bool)
    requires n <= |elems| && forall x | x in elems :: Safe(items, x)
    ensures var img := ItemImage(items, elems, n, parses);
      Traces(ItemReports(items, elems, n, parses), Positions(img), img)
  {
    if n > 0 {
      ItemReportsInOrder(items, elems, n - 1, parses);
      ItemReportsStep(items, elems, n, parses);
    }
  }

  /** One more item keeps the report traced by the image. */
  lemma ItemReportsStep(items: ObjectSchema, elems: seq<Value>, n: nat, parses: Value -> bool)
    requires 0 < n <= |elems| && forall x | x in elems :: Safe(items, x)
    requires var prior := ItemImage(items, elems, n - 1, parses);
      Traces(ItemReports(items, elems, n - 1, parses), Positions(prior), prior)
    ensures var img := ItemImage(items, elems, n, parses);
      Traces(ItemReports(items, elems, n, parses), Positions(img), img)
  {
    var img := ItemImage(items, elems, n, parses);
    var prior := ItemImage(items, elems, n - 1, parses);
    ItemImageGrows(items, elems, n, parses);
    TracesExtend(ItemReports(items, elems, n - 1, parses), prior, img[n - 1]);
  }

  /** The report is the missing required names in `required` order followed
      by the entries of the reporting properties in declaration order. */
  lemma ReportLayout(s: ObjectSchema, payload: Value, parses: Value -> bool)
    requires Safe(s, payload)
    ensures var r := Validate(s, payload, parses);
      var required := RequiredImage(s.required, payload, |s.required|);
      var types := EntryImage(s, payload, |s.properties|, parses);
      var k := |Positions(required)|;
      && k <= |r|
      && Traces(r[..k], Positions(required), required)
      && Traces(r[k..], Positions(types), types)
  {
    var required := RequiredErrors(s.required, payload, |s.required|);
    var types := DataTypeErrors(s, payload, |s.properties|, parses);
    RequiredErrorsInOrder(s.required, payload, |s.required|);
    DataTypeErrorsInOrder(s, payload, |s.properties|, parses);
    var r := Validate(s, payload, parses);
    assert r == required + types;
    assert r[..|required|] == required && r[|required|..] == types;
  }

  /** A required name is reported among the required-field errors exactly
      when it is missing. */
  lemma RequiredReported(required: seq<string>, payload: Value, k: nat)
    requires k < |required| && !Nullish(payload)
    ensures Name(required[k]) in RequiredErrors(required, payload, |required|) <==> Missing(payload, required[k])
    ensures Get(payload, required[k]) in {Bool(false), Num(0), Str("")} ==>
      Name(required[k]) !in RequiredErrors(required, payload, |required|)
  {
    var img := RequiredImage(required, payload, |required|);
    var idx := Positions(img);
    var r := RequiredErrors(required, payload, |required|);
    RequiredErrorsInOrder(required, payload, |required|);
    PositionsSelect(img);
    if Missing(payload, required[k]) {
      assert k in idx;
      var j :| 0 <= j < |idx| && idx[j] == k;
      assert r[j] == Name(required[k]);
    }
  }

  /** Every missing required name appears in the report, whatever else is
      reported. */
  lemma MissingRequiredReported(s: ObjectSchema, payload: Value, parses: Value -> bool, k: nat)
    requires Safe(s, payload) && k < |s.required| && !Nullish(payload) && Missing(payload, s.required[k])
    ensures Name(s.required[k]) in Validate(s, payload, parses)
  {
    RequiredReported(s.required, payload, k);
  }

  /** A required name that no declared property shares is only checked for
      presence: it is reported exactly when it is missing. */
  lemma UndeclaredRequiredReported(s: ObjectSchema, payload: Value, parses: Value -> bool, k: nat)
    requires Safe(s, payload) && k < |s.required| && !Nullish(payload)
    requires s.required[k] !in Names(s.properties)
    ensures Name(s.required[k]) in Validate(s, payload, parses) <==> Missing(payload, s.required[k])
  {
    RequiredReported(s.required, payload, k);
    var types := DataTypeErrors(s, payload, |s.properties|, parses);
    assert Validate(s, payload, parses) == RequiredErrors(s.required, payload, |s.required|) + types;
    assert Name(s.required[k]) !in types by {
      forall j | 0 <= j < |types|
        ensures types[j] != Name(s.required[k])
      {
      }
    }
  }
}
