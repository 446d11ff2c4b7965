/**
 * The configuration-discovery helper: the guard that refuses to run while the
 * accepted custom-field ids are still the shipped examples, the weight ladder
 * for option positions, and the formatter that turns a custom field's options
 * into a mapping table for the webhook service.
 */
module CustomFieldHelper {
  import opened Wrappers
  import RiceCalculator

  // ---------------------------------------------------------------------------
  // Placeholder check
  // ---------------------------------------------------------------------------

  /** The text every shipped example id contains. */
  const CustomFieldIdMarker: string := "CustomFieldId"

  /** The accepted custom-field ids as shipped, still to be edited. */
  const AcceptedCustomFieldIds: seq<string> :=
    ["reachCustomFieldId", "impactCustomFieldId", "confidenceCustomFieldId", "effortCustomFieldId"]

  predicate OccursAt(s: string, sub: string, i: nat) {
    i + |sub| <= |s| && s[i..i + |sub|] == sub
  }

  /** `s.indexOf(sub, from)`: the first position at or after `from` where `sub`
      occurs, or -1. */
  function IndexOfFrom(s: string, sub: string, from: nat): (r: int)
    requires from <= |s|
    decreases |s| - from
    ensures r == -1 || (from <= r && OccursAt(s, sub, r))
    ensures r == -1 <==> forall i :: from <= i <= |s| ==> !OccursAt(s, sub, i)
    ensures r != -1 ==> forall i :: from <= i < r ==> !OccursAt(s, sub, i)
  {
    if from + |sub| > |s| then -1
    else if s[from..from + |sub|] == sub then from
    else IndexOfFrom(s, sub, from + 1)
  }

  /** `s.indexOf(sub)`. */
  function IndexOf(s: string, sub: string): int {
    IndexOfFrom(s, sub, 0)
  }

  /** The loop at the start of step two: stop at the first id that still
      contains the marker. */
  method CheckAcceptedCustomFieldIds(ids: seq<string>) returns (o: Outcome<string>)
    ensures o.Pass? <==> forall k :: 0 <= k < |ids| ==> IndexOf(ids[k], CustomFieldIdMarker) == -1
    ensures o.Fail? ==> exists k :: 0 <= k < |ids| && o.error == ids[k]
                                   && IndexOf(ids[k], CustomFieldIdMarker) != -1
                                   && forall j :: 0 <= j < k ==> IndexOf(ids[j], CustomFieldIdMarker) == -1
  {
    var i := 0;
    while i < |ids|
      invariant 0 <= i <= |ids|
      invariant forall j :: 0 <= j < i ==> IndexOf(ids[j], CustomFieldIdMarker) == -1
    {
      if IndexOf(ids[i], CustomFieldIdMarker) != -1 {
        return Fail(ids[i]);
      }
      i := i + 1;
    }
    return Pass;
  }

  /** Each shipped example id contains the marker, so step two refuses to run
      until all four are replaced. */
  lemma ShippedIdsRejected()
    ensures forall k :: 0 <= k < |AcceptedCustomFieldIds| ==> IndexOf(AcceptedCustomFieldIds[k], CustomFieldIdMarker) != -1
  {
    assert OccursAt(AcceptedCustomFieldIds[0], CustomFieldIdMarker, 5);
    assert OccursAt(AcceptedCustomFieldIds[1], CustomFieldIdMarker, 6);
    assert OccursAt(AcceptedCustomFieldIds[2], CustomFieldIdMarker, 10);
    assert OccursAt(AcceptedCustomFieldIds[3], CustomFieldIdMarker, 6);
  }

  // ---------------------------------------------------------------------------
  // Weight ladder and formatter
  // ---------------------------------------------------------------------------

  /** The weight for the option at `index`; nothing outside 0..4. */
  function ValueFromIndex(index: int): (r: Option<int>)
    ensures r.Some? <==> 0 <= index < 5
  {
    match index
    case 0 => Some(1)
    case 1 => Some(3)
    case 2 => Some(5)
    case 3 => Some(8)
    case 4 => Some(10)
    case _ => None
  }

  /** The five weights rise strictly with the position of the option. */
  lemma WeightsStrictlyIncrease(i: int, j: int)
    requires 0 <= i < j < 5
    ensures ValueFromIndex(i).value < ValueFromIndex(j).value
  {
  }

  /** The ladder is the one the webhook service's mapping tables carry. */
  lemma ValueFromIndexIsLadder(i: int)
    requires 0 <= i < 5
    ensures ValueFromIndex(i) == Some(RiceCalculator.WeightLadder[i])
  {
  }

  /** An option of a custom field as the remote service lists it. */
  datatype CustomFieldItem = CustomFieldItem(customFieldItemId: string)

  /** One formatted option: its id and the weight for its position. */
  datatype WeightedItem = WeightedItem(id: string, value: Option<int>)

  /** The object printed for one custom field. */
  datatype FormattedField = FormattedField(customField: string, items: seq<WeightedItem>)

  /** Pair each option, in order, with the weight for its position. */
  function Format(id: string, items: seq<CustomFieldItem>): (r: FormattedField)
    ensures r.customField == id
    ensures |r.items| == |items|
    ensures forall i :: 0 <= i < |items| ==> r.items[i].id == items[i].customFieldItemId
    ensures forall i :: 0 <= i < |items| ==> (r.items[i].value.Some? <==> i < 5)
    ensures forall i :: 0 <= i < |items| && i < 5 ==> r.items[i].value == Some(RiceCalculator.WeightLadder[i])
  {
    FormattedField(id, seq(|items|, i requires 0 <= i < |items| =>
      WeightedItem(items[i].customFieldItemId, ValueFromIndex(i))))
  }

  /** For a field with at most five options, the formatted weights are exactly
      those of the shipped mapping tables, position by position. */
  lemma FormatMatchesShippedTables(id: string, items: seq<CustomFieldItem>)
    requires |items| <= 5
    ensures forall i :: 0 <= i < |items| ==>
              Format(id, items).items[i].value == Some(RiceCalculator.ShippedMapping().items[i].value)
  {
  }
}
