# RICE calculator webhook service: a Dafny model

This project models the decision logic of a small webhook service for a
project-management tool. When a card changes, the tool posts an event to
`/calculator`. The service checks the event's double-HMAC signature. For the
actions `committed`, `updated` and `moved` it then reads four selectable
custom fields from the card: Reach, Impact, Confidence and Effort. It turns
the selected options into weights through compiled-in mapping tables and
computes the RICE score `reach * impact * confidence / effort`. It writes that
score back to the card's score field unless the card already holds it. This
change guard is what stops the service's own write from triggering the next
webhook, and that webhook another write, without end.

The model also covers the start-up check that the mapping tables no longer
hold the placeholder id `InsertRelevantId`. It also covers the discovery
helper's guard against unedited example ids, its weight ladder `1, 3, 5, 8,
10` and its formatter.

Files:

- `wrappers.dfy`, module `Wrappers`: `Option` (a value or JavaScript's
  `undefined`) and `Outcome` (pass, or fail with a diagnostic, which stands
  for `process.exit(1)`).
- `rice_calculator.dfy`, module `RiceCalculator`: the service in `index.js`.
  The configuration is a `Config` value passed to every operation. The
  outbound `PUT cards/{cardId}` is returned as a `CardUpdate` value rather
  than sent. The keyed HMAC-SHA1/base64 digest is a function parameter
  `digest` about which nothing is assumed.
- `customfield_helper.dfy`, module `CustomFieldHelper`: the helper in
  `customfield_helper.js`.

Where the code loops (`findCustomFieldValue`, `checkCustomFieldConfiguration`
and the id loop in `stepTwo`), the model is a method with a `while` loop. Each
such method is proved against a specification function or predicate. The rest
is functions, and the properties are stated as lemmas about them.

Where the code behaves differently from what its design implies, the model follows the code:

- A missing `X-Favro-Webhook` header is passed to the digest. Node's HMAC
  `update` refuses `undefined`, so the handler raises before a status is sent.
  It does not treat the missing header as a mismatch. `Response.Raised` models
  this.
- The handler runs the update for every relevant action, whether or not the
  signature verified (see Findings).
- The start-up check looks only at the score field id and the option ids of
  the four tables. The tables' own `customFieldId`s are never checked.
- A configured weight of 0 cannot be told apart from "not set". The update
  stops on it with the same diagnostic.

## Model

| member | source | states |
|---|---|---|
| `RiceCalculator.ShippedMapping` | index.js:63-105 | Each shipped mapping table has five options, all with the placeholder id, weighted 1, 3, 5, 8, 10 in order |
| `RiceCalculator.IndexOfId` | index.js:129-131 | The first record with a given id: None exactly when no record has it, otherwise an index holding the id with no earlier one |
| `RiceCalculator.SelectedWeight` | index.js:133-140 | An empty option list gives the default. A first option absent from the table gives the default. Otherwise the result is the weight of the first table item whose id is the first selected option |
| `RiceCalculator.ResolvedValue` | index.js:128-144 | The resolved weight is the default or one of the table's weights. It is the default whenever no card record carries the mapped field id |
| `RiceCalculator.FindCustomFieldValue` | index.js:128-144 | The scan, with `continue` and both `break`s, returns exactly the resolved weight of the specification |
| `RiceCalculator.ResolvedFromFirstRecord` | index.js:129-140 | The option list of the first record with the mapped field id alone decides the result |
| `RiceCalculator.FirstRecordDecides` | index.js:129-138 | Replacing everything after the first record of the mapped field with any records leaves the resolved weight unchanged |
| `RiceCalculator.UnknownOptionInFirstRecordGivesDefault` | index.js:136-138 | If the first matching record selects an option not in the table, the result is the default, even when a later matching record selects a known option |
| `RiceCalculator.RiceScore` | index.js:170 | For non-zero effort the score times effort equals reach times impact times confidence, exactly |
| `RiceCalculator.RiceScoreExamples` | index.js:170 | 10·10·10/1 = 1000, 1·1·1/10 = 0.1 and 5·8·10/3 = 400/3 |
| `RiceCalculator.DidScoreChange` | index.js:146-150 | With no record of the score field, the score counts as changed for every new score, 0 included. Otherwise only the first such record's total is compared, and a missing total counts as different |
| `RiceCalculator.UpdateRICEScoreForCard` | index.js:152-198 | An unset-input outcome names an input that resolved to 0. A write targets the event's card and holds exactly one entry, for the score field, carrying a score the guard reports as changed. An unchanged outcome carries a score the guard reports as unchanged |
| `RiceCalculator.MissingInputMeansNoWrite` | index.js:153-167 | Any input resolving to 0 stops the update with no write. The first unset input in the order reach, impact, confidence, effort is reported, so division is reached only with effort non-zero |
| `RiceCalculator.ScoreOfCompleteCard` | index.js:170-193 | With all four inputs set, the score is reach·impact·confidence/effort. Exactly one write of it is issued when the guard reports a change, and none otherwise |
| `RiceCalculator.GuardAfterSetTotal` | index.js:146-149 | After a total is stored on a card, the guard reports no change for that same total, so re-applying a score never writes again |
| `RiceCalculator.EchoedWriteIsUnchanged` | index.js:172-183 | Once a written score is stored, rerunning the update on the echoed card ends unchanged with that score and sends nothing: the feedback loop stops after one write |
| `RiceCalculator.CheckCustomFieldConfiguration` | index.js:108-120 | Fails with "no ids" on an empty list. Fails with "not replaced" when some id is empty or the placeholder. Passes exactly when neither holds |
| `RiceCalculator.CheckStartupConfiguration` | index.js:122-126 | Passes exactly when all five checked id lists are accepted. A failure names the first entry, in source order, whose list is rejected |
| `RiceCalculator.ShippedConfigurationRejected` | index.js:61-126 | The shipped configuration is rejected, and already at its first check, the score field id |
| `RiceCalculator.VerifyWebhookRequest` | index.js:204-211 | A header equal to the digest of payload id + webhook URL + "/calculator" is always accepted |
| `RiceCalculator.VerifyExactForInjectiveDigest` | index.js:204-211 | If the digest has no collisions, a header is accepted exactly when it is that genuine digest |
| `RiceCalculator.IsValidWebhookAction` | index.js:212-214 | Exactly the actions "committed", "updated" and "moved" are relevant |
| `RiceCalculator.HandleCalculator` | index.js:231-237 | A missing header raises. Otherwise the status is 200 if the signature verifies and 403 if not. The update runs exactly for relevant actions, whatever the signature check said, and its outcome is the update decision for the event's card |
| `RiceCalculator.ForgedRequestStillWrites` | index.js:231-237 | A request with header "forged" that fails verification, action "updated" and a card with all inputs at 5 is answered 403 and still sends the write of score 25 |
| `RiceCalculator.HandleCalculatorAuthenticated` | index.js:231-237 | Corrected endpoint: same status, but the update runs exactly when the signature verified and the action is relevant |
| `RiceCalculator.AuthenticatedAgreesOnGenuineRequests` | index.js:231-237 | For a request carrying the genuine signature, the corrected endpoint answers 200 and behaves exactly like the endpoint as written |
| `CustomFieldHelper.IndexOfFrom` | customfield_helper.js:38 | `indexOf`: the first position at or after the start where the substring occurs, or -1 exactly when it occurs nowhere there |
| `CustomFieldHelper.CheckAcceptedCustomFieldIds` | customfield_helper.js:37-42 | Passes exactly when no id contains "CustomFieldId". Otherwise fails with the first id that contains it |
| `CustomFieldHelper.ShippedIdsRejected` | customfield_helper.js:30-42 | Each of the four shipped example ids contains "CustomFieldId", so the helper stops |
| `CustomFieldHelper.ValueFromIndex` | customfield_helper.js:44-54 | A weight exists exactly for positions 0..4; any other position yields none |
| `CustomFieldHelper.ValueFromIndexIsLadder` | customfield_helper.js:44-50 | Positions 0, 1, 2, 3, 4 give 1, 3, 5, 8, 10, the ladder of the service's tables |
| `CustomFieldHelper.WeightsStrictlyIncrease` | customfield_helper.js:44-50 | The weights rise strictly with the position |
| `CustomFieldHelper.Format` | customfield_helper.js:56-62 | The result carries the given id and nothing else besides the items. Length and order are preserved: item i has option i's id, a weight exactly when i < 5, and that weight is the ladder's i-th |
| `CustomFieldHelper.FormatMatchesShippedTables` | customfield_helper.js:56-57 | For at most five options, the formatted weights equal, position by position, those hard-coded in the service's mapping tables (index.js lines 66-70) |

## Findings

| source | as written | input that shows it | evidently intended | confidence | as-written member | corrected member |
|---|---|---|---|---|---|---|
| index.js:231-237 | The handler answers 403 to a request whose signature fails, then runs the update for any relevant action anyway: line 236 tests only the action | A header that does not verify, action "updated", and a card whose four inputs resolve to 5: the answer is 403 and a write of score 25 is still sent for the card the sender named | Only a verified request reaches the update, as the 403 status and the double-HMAC check imply | high; not executed | `RiceCalculator.ForgedRequestStillWrites` | `RiceCalculator.HandleCalculatorAuthenticated` |

## Left out

- HTTP plumbing is not modelled: the Express app, the body parsers, `app.listen`, writing the response and `getPort`. Only the status value and the dispatch decision are.
- The outbound `fetch` calls and their `.catch` logging are not modelled: the write is returned as a `CardUpdate`, and the helper's discovery requests are network I/O.
- HMAC-SHA1 and base64 are a parameter `digest`, not computed. Rejecting every wrong header would need collision resistance. It is proved only under an injective digest, in `VerifyExactForInjectiveDigest`.
- Environment handling is not modelled: `checkEnvironmentVariables`, the `btoa` authorization header and `getHeaders`. The webhook URL is a field of `Config`, and the secret is folded into `digest`.
- `stepOne` and all console logging, including the error log of `valueFromIndex`, are I/O only.
- Scores are exact `real`s, not IEEE-754 doubles. Ids are compared as strings, not with JavaScript's loose `==`/`!=` coercions.
- A card record of a mapped field without any `value` list is not modelled; in the source, `.value.length` would throw. Every record has an option list, possibly empty. A `payloadId` or `action` absent from the body is not modelled either: both are strings.
- `EchoedWriteIsUnchanged` depends on a model of how the remote service stores a write (`SetTotal`, `ApplyUpdate`): the total goes on the first record of the score field, or on a new record when there is none. That behaviour belongs to the remote service, not to this code.
- Concurrent webhook deliveries are not modelled; the code shares no mutable state between them.
