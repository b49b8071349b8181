# up-bank-api resource mapping, modelled in Dafny

This project models the resource-mapping layer of the Up Bank API client
(`upbankapi/models.py`). Each model constructor takes one raw JSON:API resource
object (`id`, `attributes`, `relationships`) and builds a `Transaction`,
`Account`, `Webhook`, `WebhookLog` or `WebhookEvent`. The model also covers
`Transaction.format_desc`.

Files:

- `wrappers.dfy`, module `Wrappers`: `Option`, and a `Result` that works with `:-`.
- `pyjson.dfy`, module `PyJson`: the decoded JSON value (`Json`), key-path
  lookup (`Dig`), and the Python operations the constructors apply to a value.
  These are subscripting (`Subscript`), truthiness (`Truthy`), `dict.get`
  (`DictGet`), `x or {}` (`Or`), the list comprehension over tags
  (`SubscriptAll`, `SubscriptEach`) and the f-string `str()` (`Str`). The
  library parsers are `FromIsoFormat`, `ToFloat` and `Loads`. Each of these
  is a plain definition: it raises `KeyError`, `TypeError`, `AttributeError`
  or `ValueError` where the corresponding Python operation does, within the
  value model below.
- `models.dfy`, module `Models`: the five mappings `MapTransaction`,
  `MapAccount`, `MapWebhook`, `MapWebhookEvent` and `MapWebhookLog`, plus
  `FormatDesc`. Each mapping is a function returning `Result<Entity, Error>`.
  It performs the source's subscripts and conversions in the source's order,
  so the first step that fails decides the error. Each entity has these
  partners:
  - a shape predicate (`TransactionShape`, …). It is stated only with key
    paths (`Dig`), truthiness and the `Runtime` acceptances, and says which
    resources hold which entity. A resource may carry any other keys.
  - a mapping lemma (`TransactionMapping`, …): the constructor gives entity
    `x` exactly when `x.raw` is the input and the input has the shape of `x`.
  - an invariant (`ValidTransaction`, …) that every mapped entity satisfies;
  - an encoder back to a raw resource (`EncodeTransaction`, …);
  - a round-trip lemma: mapping the encoding of a valid entity gives that
    entity back, with the encoding stored as its `raw` data.

Python does not check the annotated field types. A field the constructor
copies therefore holds whatever JSON value the resource has, and `JNull`
stands for `None`. Library behaviour the model does not reimplement is passed
in as a `Runtime` value. It records which strings `datetime.fromisoformat` and
`float` accept, what `json.loads` decodes a string to, and what `str()` gives
for a number, list or dict. A parsed timestamp is kept as the accepted text
(`Instant`). A float is kept as the value it was converted from (`Float`).

The model follows the code as written:

- A field with the wrong JSON type is stored as it is. It is not rejected.
- A `transaction` relationship whose `data` is null raises `TypeError`. Only a
  missing `"transaction"` key leaves `transaction_id` as None
  (`NullTransactionReferenceFails`).
- An unparseable timestamp raises `ValueError`, and the amount is a binary
  float, not a decimal.
- `secret_key` can be any value, including the empty string.
- The constant `TRANSACTION_SETTLED` is defined in `upbankapi/const.py`, which
  is not part of this model. It is taken to be `"SETTLED"`.

## Model

| member | source | states |
|---|---|---|
| `PyJson.SubscriptAll` | upbankapi/models.py:67-69 | the comprehension over a list succeeds exactly when every element is a dict with an "id" key. The result has the list's length and its i-th entry is the i-th element's "id". Otherwise the error is the one raised by the first element that has no "id" |
| `Models.OptionalInstant` | upbankapi/models.py:46-50 | on success, `settled_at` is None exactly when the value is falsy; otherwise the value is a non-empty string that fromisoformat accepts, and the timestamp keeps it |
| `Models.RelatedId` | upbankapi/models.py:57-66 | on success, the relationship has a "data" entry; the id is None when that entry is falsy and the entry's "id" otherwise |
| `Models.TagIds` | upbankapi/models.py:67-69 | on success, `relationships.tags.data` is a list and the ids are its elements' "id"s in order, or it is an empty str or dict and there are no ids |
| `Models.TagsSubscripted` | upbankapi/models.py:67-69 | conversely, any tag data of that form makes the comprehension give exactly those ids, in order |
| `Models.MoneyOf` | upbankapi/models.py:52-53 | on success, `value` is present and float-convertible and is what the amount was converted from, and `currencyCode` is the currency; the same step reads an account's balance (lines 103-104) |
| `Models.MapTransaction` | upbankapi/models.py:35-69 | a non-dict input raises TypeError, and a dict without "id" raises KeyError("id"); a dict without "attributes" fails. On success `raw` is the input and the input has the shape of the result: `id` is at "id"; status, rawText, description and message are their attributes; `pending` is exactly `status != "SETTLED"`; `settled_at` is None exactly when `settledAt` is falsy and otherwise was parsed from it; `created_at` was parsed from `createdAt`; amount and currency come from `amount`; category and parentCategory are None for falsy relationship data and its "id" otherwise; tags are the ids of `relationships.tags.data` in order. The result satisfies `ValidTransaction` |
| `Models.TransactionMapping` | upbankapi/models.py:35-69 | the constructor gives transaction `t` if and only if `t.raw` is the input and the input has the transaction shape of `t`. So every resource with the required paths succeeds, whatever other keys it carries |
| `Models.FormatDesc` | upbankapi/models.py:71-75 | the result starts with the description. It is longer than the description exactly when the message is truthy, and then the rest is ": " followed by the message |
| `Models.FormatDescOfStrings` | upbankapi/models.py:71-75 | for string attributes: a null or empty message gives the description alone; a non-empty message gives `description + ": " + message` |
| `Models.MapAccount` | upbankapi/models.py:94-104 | a non-dict input raises TypeError, a missing "id" raises KeyError("id"), and a missing "attributes" fails. On success `raw` is the input and the input has the account shape of the result: id, `displayName`, `accountType`, `createdAt` parsed, and the balance converted from `balance.value` with currency `balance.currencyCode` |
| `Models.AccountMapping` | upbankapi/models.py:94-104 | the constructor gives account `a` if and only if `a.raw` is the input and the input has the account shape of `a` |
| `Models.MapWebhook` | upbankapi/models.py:153-162 | the same failure cases as the other mappings. On success `url` is the required attribute; `description` and `secret_key` are the attributes' values when present and None when absent; `created_at` was parsed from `createdAt` |
| `Models.WebhookMapping` | upbankapi/models.py:153-162 | the constructor gives webhook `w` if and only if `w.raw` is the input and the input has the webhook shape of `w`; description and secretKey may be absent |
| `Models.MapWebhookEvent` | upbankapi/models.py:236-251 | the same failure cases as the other mappings. `webhook_id` is always `relationships.webhook.data.id`. `transaction_id` is None when `relationships` has no "transaction" key, and `relationships.transaction.data.id` otherwise |
| `Models.WebhookEventMapping` | upbankapi/models.py:236-251 | the constructor gives event `e` if and only if `e.raw` is the input and the input has the event shape of `e` |
| `Models.NullTransactionReferenceFails` | upbankapi/models.py:250-251 | a present "transaction" relationship with null data makes the event mapping fail rather than give None |
| `Models.DeliveredEvent` | upbankapi/models.py:207-209 | on success, `request.body` is a string that `json.loads` decodes, the document has a "data" field, and the event is the WebhookEvent mapping of that field |
| `Models.RecordedResponse` | upbankapi/models.py:214-216 | on success, a response was recorded; when it is falsy both fields are None, and otherwise it is a dict whose optional `statusCode` and `body` give them |
| `Models.MapWebhookLog` | upbankapi/models.py:201-216 | the same failure cases as the other mappings. On success `raw` is the input and the input has the log shape of the result: the event is the WebhookEvent mapping of the "data" field of the document `attributes.request.body` decodes to; `deliveryStatus` is copied and `createdAt` parsed; a falsy `response` gives None for both response fields, and otherwise `response` is a dict and each field is its optional `statusCode` / `body` |
| `Models.WebhookLogMapping` | upbankapi/models.py:201-216 | the constructor gives log entry `l` if and only if `l.raw` is the input and the input has the log shape of `l` |
| `Models.TransactionNeedsAttribute` | upbankapi/models.py:39-53 | a missing required attribute (status, rawText, description, message, settledAt, createdAt, amount) makes the mapping fail |
| `Models.AccountNeedsAttribute` | upbankapi/models.py:98-104 | a missing displayName, accountType, createdAt or balance makes the mapping fail |
| `Models.WebhookNeedsAttribute` | upbankapi/models.py:157-162 | a missing url or createdAt makes the mapping fail |
| `Models.WebhookEventNeedsAttribute` | upbankapi/models.py:240-243 | a missing eventType or createdAt makes the mapping fail |
| `Models.WebhookLogNeedsAttribute` | upbankapi/models.py:205-214 | a missing request, deliveryStatus, createdAt or response makes the mapping fail |
| `Models.TransactionRoundTrip` | upbankapi/models.py:35-69 | mapping the encoding of any valid transaction gives that transaction back, tags in order included |
| `Models.AccountRoundTrip` | upbankapi/models.py:94-104 | mapping the encoding of any valid account gives that account back |
| `Models.WebhookRoundTrip` | upbankapi/models.py:153-162 | mapping the encoding of any valid webhook gives that webhook back |
| `Models.WebhookEventRoundTrip` | upbankapi/models.py:236-251 | mapping the encoding of any valid event gives that event back. With no transaction reference, the encoding leaves the key out |
| `Models.WebhookLogRoundTrip` | upbankapi/models.py:201-216 | mapping the encoding of any valid log entry gives that entry back, provided its request body decodes to a document whose "data" is the event's encoding. Both response fields None encodes as no recorded response |
| `Models.CoffeeExample` | upbankapi/models.py:35-75 | a settled "Coffee" purchase with null category and no tags maps to a non-pending transaction with amount "-4.50" AUD, no category, an empty tag list and `format_desc` "Coffee" |

## Left out

- `datetime.fromisoformat`, `float` and `json.loads` are not reimplemented. Which inputs they accept, and what `json.loads` returns, come from the `Runtime` parameter. A timestamp keeps its text, and a float keeps its source value.
- The monetary value is not computed. Binary floating point and the OverflowError `float` raises for a huge integer are not modelled.
- A JSON number is an exact real (`JNumber`), not the int or float `json.loads` produces. So the model does not capture float decoding: an underflowing literal such as `1e-400` decodes to the falsy `0.0` in Python (a `settledAt` of `1e-400` gives `settled_at = None` there, a TypeError here). It also cannot tell `1` from `1.0`, whose `str()` differs in `format_desc`, and it has no NaN or Infinity, which Python's decoder accepts.
- `str()` of a number, list or dict in `format_desc` comes from the `Runtime` parameter. Those conversions use float and container formatting that the model does not reproduce.
- Iterating a non-empty str or dict in the tags comprehension is collapsed to TypeError, the error its first element raises. The order of a dict's keys is not modelled, because objects are maps.
- `Account.transactions`, `Webhook.ping`, `Webhook.logs`, `Webhook.delete`, `WebhookEvent.webhook` and `WebhookEvent.transaction` are left out. They only delegate to the HTTP client, which is not part of this model.
- The `_client` back-reference is not modelled. `raw` is stored as the input value.
- The `__repr__` methods are left out. They are display formatting that relies on float-to-string conversion.
- Pagination (`PaginatedList`), the HTTP transport and authentication are in files that are not part of this model.
