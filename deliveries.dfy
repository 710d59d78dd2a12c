/**
 * The values the run passes between its steps: deliveries in transit as the
 * delivery API lists them, the tracker's code-to-status map, and the
 * completion acknowledgements.
 */
module Deliveries {

  datatype Item = Item(name: string)

  datatype Delivery = Delivery(cuid: string, trackingCode: string, item: Item)

  /** What the delivery API acknowledges for one completed delivery. */
  datatype CompletionResult = CompletionResult(cuid: string, trackingCode: string, item: Item)

  /** The status the tracker reports once the parcel has arrived. */
  const Delivered: string := "DELIVERED"

  /**
   * The tracker's `Map` from tracking code to status, as its entries in
   * insertion order (the order `Array.from(statuses)` yields them).
   */
  type StatusMap = seq<(string, string)>

  /** A JavaScript `Map` holds each key once. */
  predicate IsJsMap(statuses: StatusMap) {
    forall i, j :: 0 <= i < j < |statuses| ==> statuses[i].0 != statuses[j].0
  }

  /** The entries of an actual `Map`, as the tracker returns it. */
  type JsMap = statuses: StatusMap | IsJsMap(statuses) witness []

  /** The status values of the entries, in entry order. */
  function StatusValues(statuses: StatusMap): (vs: seq<string>)
    ensures |vs| == |statuses|
    ensures forall i :: 0 <= i < |statuses| ==> vs[i] == statuses[i].1
  {
    seq(|statuses|, i requires 0 <= i < |statuses| => statuses[i].1)
  }

  /** The map `statuses.get` consults, keyed by tracking code. */
  function Keyed(statuses: StatusMap): map<string, string> {
    if statuses == [] then map[]
    else
      var last := statuses[|statuses| - 1];
      Keyed(statuses[..|statuses| - 1])[last.0 := last.1]
  }

  /** `statuses.get(code)` finds a status exactly when the map holds that entry. */
  lemma {:induction false} KeyedLookup(statuses: StatusMap, code: string, status: string)
    requires IsJsMap(statuses)
    ensures code in Keyed(statuses) && Keyed(statuses)[code] == status <==> (code, status) in statuses
  {
    if statuses != [] {
      var init := statuses[..|statuses| - 1];
      var last := statuses[|statuses| - 1];
      assert statuses == init + [last];
      LastKeyIsNew(init, last);
      KeyedLookup(init, code, status);
    }
  }

  /** The codes the map has an entry for. */
  lemma {:induction false} KeyedDomain(statuses: StatusMap)
    ensures forall code :: code in Keyed(statuses) <==> exists i :: 0 <= i < |statuses| && statuses[i].0 == code
  {
    if statuses != [] {
      var init := statuses[..|statuses| - 1];
      var last := statuses[|statuses| - 1];
      assert Keyed(statuses) == Keyed(init)[last.0 := last.1];
      KeyedDomain(init);
      forall code | code in Keyed(statuses)
        ensures exists i :: 0 <= i < |statuses| && statuses[i].0 == code
      {
        if code != statuses[|statuses| - 1].0 {
          var i :| 0 <= i < |init| && init[i].0 == code;
          assert statuses[i].0 == code;
        }
      }
      forall code | exists i :: 0 <= i < |statuses| && statuses[i].0 == code
        ensures code in Keyed(statuses)
      {
        var i :| 0 <= i < |statuses| && statuses[i].0 == code;
        if i < |init| {
          assert init[i].0 == code;
        }
      }
    }
  }

  /** `statuses.size`: one key per entry. */
  lemma {:induction false} KeyedSize(statuses: StatusMap)
    requires IsJsMap(statuses)
    ensures |Keyed(statuses)| == |statuses|
  {
    if statuses != [] {
      var init := statuses[..|statuses| - 1];
      var last := statuses[|statuses| - 1];
      assert statuses == init + [last];
      LastKeyIsNew(init, last);
      KeyedSize(init);
      KeyedDomain(init);
    }
  }

  /** The last entry's key is on no earlier entry. */
  lemma LastKeyIsNew(init: StatusMap, last: (string, string))
    requires IsJsMap(init + [last])
    ensures IsJsMap(init)
    ensures forall i :: 0 <= i < |init| ==> init[i].0 != last.0
  {
    var statuses := init + [last];
    assert forall i :: 0 <= i < |init| ==> statuses[i] == init[i];
    forall i | 0 <= i < |init| ensures init[i].0 != last.0 {
      assert statuses[i] == init[i] && statuses[|init|] == last;
    }
  }
}
