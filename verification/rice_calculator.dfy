/**
 * The webhook service of the RICE calculator: configuration validation, the
 * field resolver, the RICE score, the change guard that breaks the
 * update -> webhook -> update feedback loop, the double-HMAC webhook check and
 * the decision the `/calculator` endpoint takes for one request.
 *
 * The outbound `PUT cards/{cardId}` is not issued here: the update decision
 * returns the request it would send. The HMAC-SHA1/base64 digest keyed with the
 * webhook secret is a parameter `digest` about which nothing is assumed.
 */
module RiceCalculator {
  import opened Wrappers

  // ---------------------------------------------------------------------------
  // Data model
  // ---------------------------------------------------------------------------

  /** One custom-field record on a card: the selected option ids of a
      selectable field (`value`) and, for a number field, its `total`. */
  datatype CardCustomField = CardCustomField(customFieldId: string, value: seq<string>, total: Option<real>)

  /** The card snapshot carried by a webhook event. */
  datatype Card = Card(cardId: string, customFields: seq<CardCustomField>)

  /** One option of a selectable field and the weight it stands for. */
  datatype MappingItem = MappingItem(id: string, value: int)

  /** A selectable custom field and the weights of its options, in order. */
  datatype FieldMapping = FieldMapping(customFieldId: string, items: seq<MappingItem>)

  /** The four inputs of the RICE score, in the order they are resolved. */
  datatype Input = Reach | Impact | Confidence | Effort
  {
    function Rank(): nat {
      match this
      case Reach => 0
      case Impact => 1
      case Confidence => 2
      case Effort => 3
    }
  }

  /** The compiled-in mapping tables and score field id, plus the webhook base URL. */
  datatype Config = Config(
    riceScoreFieldId: string,
    reach: FieldMapping,
    impact: FieldMapping,
    confidence: FieldMapping,
    effort: FieldMapping,
    webhookUrl: string)
  {
    function MappingFor(input: Input): FieldMapping {
      match input
      case Reach => reach
      case Impact => impact
      case Confidence => confidence
      case Effort => effort
    }
  }

  /** One entry of the body `{ customFields: [...] }` of the outbound write. */
  datatype ScoreValue = ScoreValue(customFieldId: string, total: real)

  /** The outbound `PUT cards/{cardId}` with its JSON body. */
  datatype CardUpdate = CardUpdate(cardId: string, customFields: seq<ScoreValue>)

  /** How one run of the update ends: an input is not set (a diagnostic is
      logged), the score is unchanged (nothing is sent), or a write is sent. */
  datatype UpdateOutcome = NotSet(input: Input) | Unchanged(score: real) | Put(request: CardUpdate)

  // ---------------------------------------------------------------------------
  // Shipped configuration
  // ---------------------------------------------------------------------------

  /** The marker left in every id that still has to be replaced. */
  const Placeholder: string := "InsertRelevantId"

  /** The weights of the five options of every shipped mapping table. */
  const WeightLadder: seq<int> := [1, 3, 5, 8, 10]

  /** A mapping table as shipped: placeholder ids, weights 1, 3, 5, 8, 10. */
  function ShippedMapping(): (m: FieldMapping)
    ensures |m.items| == |WeightLadder|
    ensures forall i :: 0 <= i < |m.items| ==> m.items[i].value == WeightLadder[i] && m.items[i].id == Placeholder
  {
    FieldMapping(Placeholder, [
      MappingItem(Placeholder, 1),
      MappingItem(Placeholder, 3),
      MappingItem(Placeholder, 5),
      MappingItem(Placeholder, 8),
      MappingItem(Placeholder, 10)])
  }

  /** The configuration as shipped; the webhook URL comes from the environment. */
  function ShippedConfig(webhookUrl: string): Config {
    Config(Placeholder, ShippedMapping(), ShippedMapping(), ShippedMapping(), ShippedMapping(), webhookUrl)
  }

  // ---------------------------------------------------------------------------
  // First record with a given id (`for ... continue` and `filter(...)[0]`)
  // ---------------------------------------------------------------------------

  function FieldIds(fields: seq<CardCustomField>): (ids: seq<string>)
    ensures |ids| == |fields|
    ensures forall i :: 0 <= i < |fields| ==> ids[i] == fields[i].customFieldId
  {
    seq(|fields|, i requires 0 <= i < |fields| => fields[i].customFieldId)
  }

  function ItemIds(items: seq<MappingItem>): (ids: seq<string>)
    ensures |ids| == |items|
    ensures forall i :: 0 <= i < |items| ==> ids[i] == items[i].id
  {
    seq(|items|, i requires 0 <= i < |items| => items[i].id)
  }

  /** The position of the first occurrence of `id` in `ids`, if any. */
  function IndexOfId(ids: seq<string>, id: string): (r: Option<nat>)
    ensures r.None? <==> forall i :: 0 <= i < |ids| ==> ids[i] != id
    ensures r.Some? ==> r.value < |ids| && ids[r.value] == id
    ensures r.Some? ==> forall i :: 0 <= i < r.value ==> ids[i] != id
  {
    if |ids| == 0 then None
    else if ids[0] == id then Some(0)
    else match IndexOfId(ids[1..], id)
      case None => None
      case Some(k) => Some(k + 1)
  }

  /** A first occurrence is unaffected by what is appended after it. */
  lemma IndexOfIdAppend(ids: seq<string>, more: seq<string>, id: string)
    requires IndexOfId(ids, id).Some?
    ensures IndexOfId(ids + more, id) == IndexOfId(ids, id)
  {
    var k := IndexOfId(ids, id).value;
    assert (ids + more)[k] == id;
    assert forall i :: 0 <= i < k ==> (ids + more)[i] == ids[i];
  }

  /** Pins down the result from a known first occurrence. */
  lemma IndexOfIdAt(ids: seq<string>, id: string, k: nat)
    requires k < |ids| && ids[k] == id
    requires forall i :: 0 <= i < k ==> ids[i] != id
    ensures IndexOfId(ids, id) == Some(k)
  {
    assert IndexOfId(ids, id).Some?;
  }

  /** Only the ids decide where the first occurrence is. */
  lemma IndexOfIdSameIds(fields: seq<CardCustomField>, fields': seq<CardCustomField>, id: string)
    requires |fields| == |fields'|
    requires forall i :: 0 <= i < |fields| ==> fields[i].customFieldId == fields'[i].customFieldId
    ensures IndexOfId(FieldIds(fields), id) == IndexOfId(FieldIds(fields'), id)
  {
    assert FieldIds(fields) == FieldIds(fields');
  }

  // ---------------------------------------------------------------------------
  // Field resolver (`findCustomFieldValue`)
  // ---------------------------------------------------------------------------

  /** The weight picked for the option list `selected` of the first card record
      of the mapped field: the default when nothing is selected or the first
      selected option is not in the table, else the weight of the first table
      item with that id. */
  function SelectedWeight(selected: seq<string>, mapping: FieldMapping, defaultValue: int): (r: int)
    ensures |selected| == 0 ==> r == defaultValue
    ensures |selected| > 0 && (forall j :: 0 <= j < |mapping.items| ==> mapping.items[j].id != selected[0]) ==> r == defaultValue
    ensures |selected| > 0 ==>
              forall j :: 0 <= j < |mapping.items| && mapping.items[j].id == selected[0] &&
                          (forall j' :: 0 <= j' < j ==> mapping.items[j'].id != selected[0]) ==>
                            r == mapping.items[j].value
  {
    if |selected| == 0 then defaultValue
    else match IndexOfId(ItemIds(mapping.items), selected[0])
      case None => defaultValue
      case Some(j) => mapping.items[j].value
  }

  /** The weight a card holds for a mapped field, or `defaultValue`. Only the
      first card record carrying the mapping's field id is looked at. */
  function ResolvedValue(card: Card, mapping: FieldMapping, defaultValue: int): (r: int)
    ensures r == defaultValue || exists j :: 0 <= j < |mapping.items| && r == mapping.items[j].value
    ensures (forall i :: 0 <= i < |card.customFields| ==> card.customFields[i].customFieldId != mapping.customFieldId)
            ==> r == defaultValue
  {
    match IndexOfId(FieldIds(card.customFields), mapping.customFieldId)
    case None => defaultValue
    case Some(k) => SelectedWeight(card.customFields[k].value, mapping, defaultValue)
  }

  /** The scan over the card's records: skip records of other fields, stop at
      the first record of the mapped field. */
  method FindCustomFieldValue(card: Card, mapping: FieldMapping, defaultValue: int) returns (r: int)
    ensures r == ResolvedValue(card, mapping, defaultValue)
  {
    var fields := card.customFields;
    var i := 0;
    while i < |fields|
      invariant 0 <= i <= |fields|
      invariant forall j :: 0 <= j < i ==> fields[j].customFieldId != mapping.customFieldId
    {
      var field := fields[i];
      if field.customFieldId != mapping.customFieldId {
        i := i + 1;
        continue;
      }
      assert IndexOfId(FieldIds(fields), mapping.customFieldId) == Some(i);
      if |field.value| == 0 {
        break;
      }
      var matching := IndexOfId(ItemIds(mapping.items), field.value[0]);
      if matching.None? {
        break;
      }
      return mapping.items[matching.value].value;
    }
    return defaultValue;
  }

  /** Once the first record of the mapped field is known, its option list
      alone decides the result: the default for an empty list, else the weight
      of the first table item with the first selected id, else the default. */
  lemma ResolvedFromFirstRecord(card: Card, mapping: FieldMapping, defaultValue: int, k: nat)
    requires k < |card.customFields| && card.customFields[k].customFieldId == mapping.customFieldId
    requires forall i :: 0 <= i < k ==> card.customFields[i].customFieldId != mapping.customFieldId
    ensures ResolvedValue(card, mapping, defaultValue) == SelectedWeight(card.customFields[k].value, mapping, defaultValue)
  {
    IndexOfIdAt(FieldIds(card.customFields), mapping.customFieldId, k);
  }

  /** Records after the first record of the mapped field never matter, whatever
      they select. */
  lemma FirstRecordDecides(card: Card, mapping: FieldMapping, defaultValue: int, k: nat, later: seq<CardCustomField>)
    requires k < |card.customFields| && card.customFields[k].customFieldId == mapping.customFieldId
    ensures ResolvedValue(card, mapping, defaultValue)
         == ResolvedValue(Card(card.cardId, card.customFields[..k + 1] + later), mapping, defaultValue)
  {
    var fields := card.customFields;
    var fields' := fields[..k + 1] + later;
    var id := mapping.customFieldId;
    assert FieldIds(fields[..k + 1])[k] == id;
    var p := IndexOfId(FieldIds(fields[..k + 1]), id);
    assert FieldIds(fields) == FieldIds(fields[..k + 1]) + FieldIds(fields[k + 1..]);
    assert FieldIds(fields') == FieldIds(fields[..k + 1]) + FieldIds(later);
    IndexOfIdAppend(FieldIds(fields[..k + 1]), FieldIds(fields[k + 1..]), id);
    IndexOfIdAppend(FieldIds(fields[..k + 1]), FieldIds(later), id);
    assert fields[p.value] == fields'[p.value];
  }

  /** The `break` at an unknown option: if the first record of the mapped field
      selects an option that is not in the table, the default is returned even
      when a later record of the same field selects a configured option. */
  lemma UnknownOptionInFirstRecordGivesDefault(card: Card, mapping: FieldMapping, defaultValue: int, k: nat)
    requires k < |card.customFields| && card.customFields[k].customFieldId == mapping.customFieldId
    requires forall i :: 0 <= i < k ==> card.customFields[i].customFieldId != mapping.customFieldId
    requires |card.customFields[k].value| > 0
    requires forall j :: 0 <= j < |mapping.items| ==> mapping.items[j].id != card.customFields[k].value[0]
    ensures ResolvedValue(card, mapping, defaultValue) == defaultValue
  {
    assert IndexOfId(FieldIds(card.customFields), mapping.customFieldId) == Some(k);
  }

  // ---------------------------------------------------------------------------
  // Score and change guard
  // ---------------------------------------------------------------------------

  /** `reach * impact * confidence / effort`, exactly. */
  function RiceScore(reach: int, impact: int, confidence: int, effort: int): (s: real)
    requires effort != 0
    ensures s * (effort as real) == (reach * impact * confidence) as real
  {
    (reach * impact * confidence) as real / effort as real
  }

  /** Worked values of the score over the weight ladder. */
  lemma RiceScoreExamples()
    ensures RiceScore(10, 10, 10, 1) == 1000.0
    ensures RiceScore(1, 1, 1, 10) == 0.1
    ensures RiceScore(5, 8, 10, 3) == 400.0 / 3.0
  {
  }

  /** Whether `newScore` differs from the total stored on the first card record
      of the score field; a missing record or a record without a total counts
      as different from every number, 0 included. */
  function DidScoreChange(card: Card, riceScoreFieldId: string, newScore: real): (changed: bool)
    ensures (forall i :: 0 <= i < |card.customFields| ==> card.customFields[i].customFieldId != riceScoreFieldId) ==> changed
    ensures forall k :: 0 <= k < |card.customFields| && card.customFields[k].customFieldId == riceScoreFieldId &&
                        (forall i :: 0 <= i < k ==> card.customFields[i].customFieldId != riceScoreFieldId) ==>
                          (changed <==> card.customFields[k].total != Some(newScore))
  {
    match IndexOfId(FieldIds(card.customFields), riceScoreFieldId)
    case None => true
    case Some(k) => card.customFields[k].total != Some(newScore)
  }

  // ---------------------------------------------------------------------------
  // Update decision (`updateRICEScoreForCard`)
  // ---------------------------------------------------------------------------

  /** The weight of one input on the card, 0 when it is not set. */
  function Resolved(cfg: Config, card: Card, input: Input): int {
    ResolvedValue(card, cfg.MappingFor(input), 0)
  }

  /** Resolve the four inputs in order, stop at the first one that is 0,
      compute the score and send it unless the card already holds it. */
  function UpdateRICEScoreForCard(cfg: Config, card: Card): (o: UpdateOutcome)
    ensures o.NotSet? ==> Resolved(cfg, card, o.input) == 0
    ensures o.Put? ==>
              && o.request.cardId == card.cardId
              && |o.request.customFields| == 1
              && o.request.customFields[0].customFieldId == cfg.riceScoreFieldId
              && DidScoreChange(card, cfg.riceScoreFieldId, o.request.customFields[0].total)
    ensures o.Unchanged? ==> !DidScoreChange(card, cfg.riceScoreFieldId, o.score)
  {
    var reach := Resolved(cfg, card, Reach);
    if reach == 0 then NotSet(Reach) else
    var impact := Resolved(cfg, card, Impact);
    if impact == 0 then NotSet(Impact) else
    var confidence := Resolved(cfg, card, Confidence);
    if confidence == 0 then NotSet(Confidence) else
    var effort := Resolved(cfg, card, Effort);
    if effort == 0 then NotSet(Effort) else
    var riceScore := RiceScore(reach, impact, confidence, effort);
    if !DidScoreChange(card, cfg.riceScoreFieldId, riceScore) then Unchanged(riceScore)
    else Put(CardUpdate(card.cardId, [ScoreValue(cfg.riceScoreFieldId, riceScore)]))
  }

  /** An input that resolves to 0 stops the update before any write; the
      input reported is the first unset one in the order reach, impact,
      confidence, effort, so the division is only reached with effort != 0. */
  lemma MissingInputMeansNoWrite(cfg: Config, card: Card, input: Input)
    requires Resolved(cfg, card, input) == 0
    ensures UpdateRICEScoreForCard(cfg, card).NotSet?
    ensures UpdateRICEScoreForCard(cfg, card).input.Rank() <= input.Rank()
    ensures forall earlier: Input :: earlier.Rank() < UpdateRICEScoreForCard(cfg, card).input.Rank() ==>
              Resolved(cfg, card, earlier) != 0
  {
  }

  /** When all four inputs are set, the score that is sent or found unchanged
      is `reach * impact * confidence / effort`, and it is sent exactly when the
      guard reports a change. */
  lemma ScoreOfCompleteCard(cfg: Config, card: Card)
    requires forall input :: Resolved(cfg, card, input) != 0
    ensures var s := RiceScore(Resolved(cfg, card, Reach), Resolved(cfg, card, Impact),
                               Resolved(cfg, card, Confidence), Resolved(cfg, card, Effort));
            UpdateRICEScoreForCard(cfg, card)
              == if DidScoreChange(card, cfg.riceScoreFieldId, s)
                 then Put(CardUpdate(card.cardId, [ScoreValue(cfg.riceScoreFieldId, s)]))
                 else Unchanged(s)
  {
    assert Resolved(cfg, card, Reach) != 0 && Resolved(cfg, card, Impact) != 0;
    assert Resolved(cfg, card, Confidence) != 0 && Resolved(cfg, card, Effort) != 0;
  }

  // ---------------------------------------------------------------------------
  // The feedback loop
  // ---------------------------------------------------------------------------

  /** How the remote service stores a total: on the first record of that
      field, or on a new record when the card has none. */
  function SetTotal(fields: seq<CardCustomField>, id: string, total: real): (r: seq<CardCustomField>)
    ensures |fields| <= |r| <= |fields| + 1
    ensures forall i :: 0 <= i < |fields| ==> r[i].customFieldId == fields[i].customFieldId && r[i].value == fields[i].value
    ensures |r| == |fields| + 1 ==> r[|fields|] == CardCustomField(id, [], Some(total))
  {
    match IndexOfId(FieldIds(fields), id)
    case Some(k) => fields[k := fields[k].(total := Some(total))]
    case None => fields + [CardCustomField(id, [], Some(total))]
  }

  /** The card as the remote service holds it after applying `u`. */
  function ApplyUpdate(card: Card, u: CardUpdate): Card
    decreases |u.customFields|
  {
    if |u.customFields| == 0 then card
    else
      var sv := u.customFields[0];
      ApplyUpdate(Card(card.cardId, SetTotal(card.customFields, sv.customFieldId, sv.total)),
                  CardUpdate(u.cardId, u.customFields[1..]))
  }

  /** Once a total is stored, the guard reports no change for that same total. */
  lemma GuardAfterSetTotal(card: Card, id: string, total: real)
    ensures !DidScoreChange(Card(card.cardId, SetTotal(card.customFields, id, total)), id, total)
  {
    var fields := card.customFields;
    var fields' := SetTotal(fields, id, total);
    match IndexOfId(FieldIds(fields), id)
    case Some(k) =>
      assert fields' == fields[k := fields[k].(total := Some(total))];
      IndexOfIdSameIds(fields, fields', id);
    case None =>
      assert FieldIds(fields') == FieldIds(fields) + [id];
      assert FieldIds(fields')[|fields|] == id;
  }

  /** A mapped field that resolves to a non-default weight keeps resolving to
      it after a total is stored on the card. */
  lemma ResolvedAfterSetTotal(card: Card, mapping: FieldMapping, id: string, total: real)
    requires IndexOfId(FieldIds(card.customFields), mapping.customFieldId).Some?
    ensures ResolvedValue(Card(card.cardId, SetTotal(card.customFields, id, total)), mapping, 0)
         == ResolvedValue(card, mapping, 0)
  {
    var fields := card.customFields;
    var fields' := SetTotal(fields, id, total);
    var k := IndexOfId(FieldIds(fields), mapping.customFieldId).value;
    if |fields'| == |fields| {
      IndexOfIdSameIds(fields, fields', mapping.customFieldId);
    } else {
      assert FieldIds(fields') == FieldIds(fields) + [id];
      IndexOfIdAppend(FieldIds(fields), [id], mapping.customFieldId);
    }
    assert fields'[k].value == fields[k].value;
  }

  /** The feedback-loop breaker: when the service writes a score and the remote
      service echoes the written card back in an `updated` event, the second
      run finds the score unchanged and sends nothing. */
  lemma {:induction false} EchoedWriteIsUnchanged(cfg: Config, card: Card)
    ensures UpdateRICEScoreForCard(cfg, card).Put? ==>
              var u := UpdateRICEScoreForCard(cfg, card).request;
              UpdateRICEScoreForCard(cfg, ApplyUpdate(card, u)) == Unchanged(u.customFields[0].total)
  {
    if !UpdateRICEScoreForCard(cfg, card).Put? {
      return;
    }
    var u := UpdateRICEScoreForCard(cfg, card).request;
    var s := u.customFields[0].total;
    var id := cfg.riceScoreFieldId;
    var card' := Card(card.cardId, SetTotal(card.customFields, id, s));
    assert ApplyUpdate(card, u) == card' by {
      assert u.customFields == [ScoreValue(id, s)];
      assert ApplyUpdate(card, u) == ApplyUpdate(card', CardUpdate(u.cardId, []));
    }
    InputsSurviveSetTotal(cfg, card, s);
    GuardAfterSetTotal(card, id, s);
    ScoreOfCompleteCard(cfg, card);
    ScoreOfCompleteCard(cfg, card');
  }

  /** Storing the score leaves every input of a written card where it was. */
  lemma InputsSurviveSetTotal(cfg: Config, card: Card, total: real)
    requires UpdateRICEScoreForCard(cfg, card).Put?
    ensures forall input :: Resolved(cfg, card, input) != 0
    ensures forall input :: Resolved(cfg, Card(card.cardId, SetTotal(card.customFields, cfg.riceScoreFieldId, total)), input)
                         == Resolved(cfg, card, input)
  {
    forall input
      ensures Resolved(cfg, card, input) != 0
      ensures Resolved(cfg, Card(card.cardId, SetTotal(card.customFields, cfg.riceScoreFieldId, total)), input)
           == Resolved(cfg, card, input)
    {
      InputSurvivesSetTotal(cfg, card, total, input);
    }
  }

  lemma InputSurvivesSetTotal(cfg: Config, card: Card, total: real, input: Input)
    requires UpdateRICEScoreForCard(cfg, card).Put?
    ensures Resolved(cfg, card, input) != 0
    ensures Resolved(cfg, Card(card.cardId, SetTotal(card.customFields, cfg.riceScoreFieldId, total)), input)
         == Resolved(cfg, card, input)
  {
    if Resolved(cfg, card, input) == 0 {
      MissingInputMeansNoWrite(cfg, card, input);
      assert false;
    }
    ResolvedAfterSetTotal(card, cfg.MappingFor(input), cfg.riceScoreFieldId, total);
  }

  // ---------------------------------------------------------------------------
  // Configuration validation (`checkCustomFieldConfiguration`)
  // ---------------------------------------------------------------------------

  /** Why start-up stops, with the name of the offending configuration entry. */
  datatype ConfigError = NoIds(name: string) | IdNotReplaced(name: string)

  /** An id counts as configured when it is non-empty and not the placeholder. */
  predicate IdReplaced(id: string) {
    id != "" && id != Placeholder
  }

  predicate IdsAccepted(ids: seq<string>) {
    |ids| > 0 && forall i :: 0 <= i < |ids| ==> IdReplaced(ids[i])
  }

  /** Fails on an empty list and on the first id that is empty or the placeholder. */
  method CheckCustomFieldConfiguration(name: string, ids: seq<string>) returns (o: Outcome<ConfigError>)
    ensures o.Pass? <==> IdsAccepted(ids)
    ensures |ids| == 0 ==> o == Fail(NoIds(name))
    ensures |ids| > 0 && !IdsAccepted(ids) ==> o == Fail(IdNotReplaced(name))
  {
    if |ids| == 0 {
      return Fail(NoIds(name));
    }
    var i := 0;
    while i < |ids|
      invariant 0 <= i <= |ids|
      invariant forall j :: 0 <= j < i ==> IdReplaced(ids[j])
    {
      if ids[i] == "" || ids[i] == Placeholder {
        return Fail(IdNotReplaced(name));
      }
      i := i + 1;
    }
    return Pass;
  }

  /** The five entries checked at start-up, in order, with their names. */
  function ConfigurationEntries(cfg: Config): seq<(string, seq<string>)> {
    [("RICE Score", [cfg.riceScoreFieldId]),
     ("Reach", ItemIds(cfg.reach.items)),
     ("Impact", ItemIds(cfg.impact.items)),
     ("Confidence", ItemIds(cfg.confidence.items)),
     ("Effort", ItemIds(cfg.effort.items))]
  }

  /** Start-up accepts a configuration whose every checked id is replaced. */
  predicate WellConfigured(cfg: Config) {
    forall k :: 0 <= k < |ConfigurationEntries(cfg)| ==> IdsAccepted(ConfigurationEntries(cfg)[k].1)
  }

  /** The five checks run at start-up; the first failure ends the process. */
  method CheckStartupConfiguration(cfg: Config) returns (o: Outcome<ConfigError>)
    ensures o.Pass? <==> WellConfigured(cfg)
    ensures o.Fail? ==> exists k :: 0 <= k < 5
                          && !IdsAccepted(ConfigurationEntries(cfg)[k].1)
                          && o.error.name == ConfigurationEntries(cfg)[k].0
                          && forall j :: 0 <= j < k ==> IdsAccepted(ConfigurationEntries(cfg)[j].1)
  {
    var entries := ConfigurationEntries(cfg);
    o := CheckCustomFieldConfiguration("RICE Score", [cfg.riceScoreFieldId]);
    if o.Fail? { assert !IdsAccepted(entries[0].1); return; }
    o := CheckCustomFieldConfiguration("Reach", ItemIds(cfg.reach.items));
    if o.Fail? { assert !IdsAccepted(entries[1].1); return; }
    o := CheckCustomFieldConfiguration("Impact", ItemIds(cfg.impact.items));
    if o.Fail? { assert !IdsAccepted(entries[2].1); return; }
    o := CheckCustomFieldConfiguration("Confidence", ItemIds(cfg.confidence.items));
    if o.Fail? { assert !IdsAccepted(entries[3].1); return; }
    o := CheckCustomFieldConfiguration("Effort", ItemIds(cfg.effort.items));
    if o.Fail? { assert !IdsAccepted(entries[4].1); return; }
  }

  /** As shipped, start-up stops at the very first check, on the score field id. */
  lemma ShippedConfigurationRejected(webhookUrl: string)
    ensures !WellConfigured(ShippedConfig(webhookUrl))
    ensures !IdsAccepted(ConfigurationEntries(ShippedConfig(webhookUrl))[0].1)
  {
    assert !IdReplaced(ConfigurationEntries(ShippedConfig(webhookUrl))[0].1[0]);
  }

  // ---------------------------------------------------------------------------
  // Webhook verification and the `/calculator` endpoint
  // ---------------------------------------------------------------------------

  /** Double-HMAC: digest the expected content twice and the header once, and
      compare the two digests. */
  function VerifyWebhookRequest(digest: string -> string, webhookUrl: string, payloadId: string, header: string): (ok: bool)
    ensures header == digest(payloadId + webhookUrl + "/calculator") ==> ok
  {
    var content := payloadId + webhookUrl + "/calculator";
    var doubleHash := digest(digest(content));
    var headerHash := digest(header);
    doubleHash == headerHash
  }

  /** With a digest that has no collisions, exactly the genuine header passes. */
  lemma VerifyExactForInjectiveDigest(digest: string -> string, webhookUrl: string, payloadId: string, header: string)
    requires forall a, b :: digest(a) == digest(b) ==> a == b
    ensures VerifyWebhookRequest(digest, webhookUrl, payloadId, header)
            <==> header == digest(payloadId + webhookUrl + "/calculator")
  {
  }

  /** The action tags that trigger a recomputation. */
  const WebhookActions: seq<string> := ["committed", "updated", "moved"]

  function IsValidWebhookAction(action: string): (valid: bool)
    ensures valid <==> action == "committed" || action == "updated" || action == "moved"
  {
    action in WebhookActions
  }

  /** The parts of an inbound `POST /calculator` the endpoint reads; `header`
      is the `X-Favro-Webhook` header, which may be missing. */
  datatype WebhookRequest = WebhookRequest(payloadId: string, action: string, header: Option<string>, card: Card)

  /** What the endpoint does with a request: answer with a status and maybe run
      the update, or raise before answering (digesting a missing header). */
  datatype Response = Answered(status: int, update: Option<UpdateOutcome>) | Raised

  /** The endpoint as written: the status reflects the signature check, but the
      update runs for every relevant action, whatever the check said. */
  function HandleCalculator(cfg: Config, digest: string -> string, request: WebhookRequest): (resp: Response)
    ensures resp.Raised? <==> request.header.None?
    ensures resp.Answered? ==> resp.status in {200, 403}
    ensures resp.Answered? ==> (resp.status == 200 <==> VerifyWebhookRequest(digest, cfg.webhookUrl, request.payloadId, request.header.value))
    ensures resp.Answered? ==> (resp.update.Some? <==> IsValidWebhookAction(request.action))
    ensures resp.Answered? && resp.update.Some? ==> resp.update.value == UpdateRICEScoreForCard(cfg, request.card)
  {
    match request.header
    case None => Raised
    case Some(header) =>
      var authOk := VerifyWebhookRequest(digest, cfg.webhookUrl, request.payloadId, header);
      var status := if authOk then 200 else 403;
      if IsValidWebhookAction(request.action)
      then Answered(status, Some(UpdateRICEScoreForCard(cfg, request.card)))
      else Answered(status, None)
  }

  /** A configuration with real ids, used to exhibit the missing gate. */
  function SampleConfig(): Config {
    Config("score", FieldMapping("r", [MappingItem("r1", 5)]), FieldMapping("i", [MappingItem("i1", 5)]),
           FieldMapping("c", [MappingItem("c1", 5)]), FieldMapping("e", [MappingItem("e1", 5)]), "https://example.org")
  }

  /** A card selecting the configured option of each input and holding no score. */
  function SampleCard(): Card {
    Card("card", [CardCustomField("r", ["r1"], None), CardCustomField("i", ["i1"], None),
                  CardCustomField("c", ["c1"], None), CardCustomField("e", ["e1"], None)])
  }

  lemma SampleCardWrites()
    ensures UpdateRICEScoreForCard(SampleConfig(), SampleCard()) == Put(CardUpdate("card", [ScoreValue("score", 25.0)]))
  {
    var cfg, card := SampleConfig(), SampleCard();
    SampleInputs();
    assert DidScoreChange(card, "score", RiceScore(5, 5, 5, 5));
    assert RiceScore(5, 5, 5, 5) == 25.0;
    ScoreOfCompleteCard(cfg, card);
  }

  /** Each input of the sample card resolves to its one configured weight. */
  lemma SampleInputs()
    ensures forall input :: Resolved(SampleConfig(), SampleCard(), input) == 5
  {
    forall input ensures Resolved(SampleConfig(), SampleCard(), input) == 5 {
      SampleInput(input);
    }
  }

  lemma SampleInput(input: Input)
    ensures Resolved(SampleConfig(), SampleCard(), input) == 5
  {
    var cfg, card := SampleConfig(), SampleCard();
    var m := cfg.MappingFor(input);
    ResolvedFromFirstRecord(card, m, 0, input.Rank());
  }

  /** A request whose header does not verify still makes the endpoint write a
      score, chosen by the sender, onto the card the sender names: here any
      digest under which the header "forged" fails the check. */
  lemma ForgedRequestStillWrites(digest: string -> string)
    requires digest("forged") != digest(digest("p" + "https://example.org" + "/calculator"))
    ensures var request := WebhookRequest("p", "updated", Some("forged"), SampleCard());
            && !VerifyWebhookRequest(digest, SampleConfig().webhookUrl, request.payloadId, "forged")
            && HandleCalculator(SampleConfig(), digest, request)
               == Answered(403, Some(Put(CardUpdate("card", [ScoreValue("score", 25.0)]))))
  {
    SampleCardWrites();
  }

  /** The endpoint with the update gated on the signature check: a request
      that does not verify is answered 403 and never reaches the update. */
  function HandleCalculatorAuthenticated(cfg: Config, digest: string -> string, request: WebhookRequest): (resp: Response)
    ensures resp.Raised? <==> request.header.None?
    ensures resp.Answered? ==> (resp.status == 200 <==> VerifyWebhookRequest(digest, cfg.webhookUrl, request.payloadId, request.header.value))
    ensures resp.Answered? ==> resp.status in {200, 403}
    ensures resp.Answered? ==> (resp.update.Some? <==> resp.status == 200 && IsValidWebhookAction(request.action))
    ensures resp.Answered? && resp.update.Some? ==> resp.update.value == UpdateRICEScoreForCard(cfg, request.card)
  {
    match request.header
    case None => Raised
    case Some(header) =>
      var authOk := VerifyWebhookRequest(digest, cfg.webhookUrl, request.payloadId, header);
      if !authOk then Answered(403, None)
      else if IsValidWebhookAction(request.action)
      then Answered(200, Some(UpdateRICEScoreForCard(cfg, request.card)))
      else Answered(200, None)
  }

  /** With the gate, a request carrying the genuine signature behaves exactly
      as the endpoint as written; only unverified requests lose the update. */
  lemma AuthenticatedAgreesOnGenuineRequests(cfg: Config, digest: string -> string, request: WebhookRequest)
    requires request.header == Some(digest(request.payloadId + cfg.webhookUrl + "/calculator"))
    ensures HandleCalculatorAuthenticated(cfg, digest, request) == HandleCalculator(cfg, digest, request)
    ensures HandleCalculator(cfg, digest, request).Answered?
    ensures HandleCalculator(cfg, digest, request).status == 200
  {
  }
}
