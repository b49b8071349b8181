/**
  The resource-mapping layer of upbankapi/models.py: each constructor turns one raw
  JSON:API resource object (`id`, `attributes`, `relationships`) into a typed entity,
  or raises the exception Python raises at the first subscript or conversion that fails.

  Python does not check the annotated field types, so a copied field holds whatever
  value the resource has (JNull stands for None). Each mapping is paired with a shape
  predicate that says, in terms of the resource's key paths, which resources hold which
  entity; a mapping lemma shows that the constructor succeeds on exactly those resources.
  Each entity also has an invariant that every mapped entity satisfies, and an encoder
  back to a raw resource whose round-trip lemma gives the entity back.
*/
module Models {
  import opened Wrappers
  import opened PyJson

  /** TRANSACTION_SETTLED, the status of a settled transaction. */
  const TransactionSettled: Json := JString("SETTLED")

  // ---------------------------------------------------------------------------
  // Entities
  // ---------------------------------------------------------------------------

  datatype Transaction = Transaction(
    id: Json,
    status: Json,
    pending: bool,
    rawText: Json,
    description: Json,
    message: Json,
    settledAt: Option<Instant>,
    createdAt: Instant,
    amount: Float,
    currency: Json,
    category: Json,
    parentCategory: Json,
    tags: seq<Json>,
    raw: Json)

  datatype Account = Account(
    id: Json,
    name: Json,
    accountType: Json,
    createdAt: Instant,
    balance: Float,
    currency: Json,
    raw: Json)

  datatype Webhook = Webhook(
    id: Json,
    url: Json,
    description: Json,
    secretKey: Json,
    createdAt: Instant,
    raw: Json)

  datatype WebhookEvent = WebhookEvent(
    id: Json,
    eventType: Json,
    createdAt: Instant,
    webhookId: Json,
    transactionId: Json,
    raw: Json)

  datatype WebhookLog = WebhookLog(
    id: Json,
    event: WebhookEvent,
    deliveryStatus: Json,
    createdAt: Instant,
    responseCode: Json,
    responseBody: Json,
    raw: Json)

  // ---------------------------------------------------------------------------
  // Steps shared by the constructors, and what their results mean
  // ---------------------------------------------------------------------------

  /** `fromisoformat(j) if j else None`. */
  function OptionalInstant(rt: Runtime, j: Json): (r: Result<Option<Instant>, Error>)
    ensures r.Ok? ==> SettledFrom(rt, Some(j), r.value)
  {
    if Truthy(j) then
      var t :- FromIsoFormat(rt, j);
      Ok(Some(t))
    else Ok(None)
  }

  /** `relationships[name]["data"]["id"] if relationships[name]["data"] else None`. */
  function RelatedId(relationships: Json, name: string): (r: Result<Json, Error>)
    ensures r.Ok? ==> RelatedTo(relationships, name, r.value)
  {
    var relation :- Subscript(relationships, name);
    var related :- Subscript(relation, "data");
    if Truthy(related) then Subscript(related, "id") else Ok(JNull)
  }

  /** `t` was parsed from `text`: the value read is the string `t.iso`, which fromisoformat accepts. */
  predicate ParsedFrom(rt: Runtime, text: Option<Json>, t: Instant) {
    text == Some(JString(t.iso)) && rt.acceptsIsoFormat(t.iso)
  }

  /** A value was read, and `settledAt` is None exactly when it is falsy; otherwise it was parsed from it. */
  predicate SettledFrom(rt: Runtime, text: Option<Json>, settledAt: Option<Instant>) {
    && text.Some?
    && match settledAt
       case None => !Truthy(text.value)
       case Some(t) => t.iso != "" && ParsedFrom(rt, text, t)
  }

  /** The relationship `name` has a "data" entry; `id` is None when that entry is falsy and its "id" otherwise. */
  predicate RelatedTo(relationships: Json, name: string, id: Json) {
    && Dig(relationships, [name]).Some?
    && var related := Dig(Dig(relationships, [name]).value, ["data"]);
    && related.Some?
    && if Truthy(related.value) then Dig(related.value, ["id"]) == Some(id) else id == JNull
  }

  /**
    `ids` are what the tags comprehension yields from `tagsData`: for a list, the "id" of
    every element, in order; for an empty str or dict, nothing. Any other value raises.
  */
  predicate TagsListed(tagsData: Json, ids: seq<Json>) {
    match tagsData
    case JArray(xs) => |ids| == |xs| && forall i :: 0 <= i < |xs| ==> Dig(xs[i], ["id"]) == Some(ids[i])
    case JString(s) => s == "" && ids == []
    case JObject(m) => m == map[] && ids == []
    case _ => false
  }

  /** `[tag["id"] for tag in relationships["tags"]["data"]]`. */
  function TagIds(relationships: Json): (r: Result<seq<Json>, Error>)
    ensures r.Ok? ==> Dig(relationships, ["tags", "data"]).Some? && TagsListed(Dig(relationships, ["tags", "data"]).value, r.value)
  {
    var tagsRelation :- Subscript(relationships, "tags");
    var tagsData :- Subscript(tagsRelation, "data");
    SubscriptEach(tagsData, "id")
  }

  /** `float(money["value"])` and `money["currencyCode"]`, read in that order. */
  function MoneyOf(rt: Runtime, money: Json): (r: Result<(Float, Json), Error>)
    ensures r.Ok? ==> MoneyIn(rt, Some(money), r.value.0, r.value.1)
  {
    var value :- Subscript(money, "value");
    var amount :- ToFloat(rt, value);
    var currency :- Subscript(money, "currencyCode");
    Ok((amount, currency))
  }

  /** A money object was read: `amount` was converted from its "value", and `currency` is its "currencyCode". */
  predicate MoneyIn(rt: Runtime, money: Option<Json>, amount: Float, currency: Json) {
    && money.Some?
    && Dig(money.value, ["value"]) == Some(amount.source) && FloatConvertible(rt, amount.source)
    && Dig(money.value, ["currencyCode"]) == Some(currency)
  }

  lemma MoneyRead(rt: Runtime, money: Json, amount: Float, currency: Json)
    requires MoneyIn(rt, Some(money), amount, currency)
    ensures MoneyOf(rt, money) == Ok((amount, currency))
  {
    DigKey(money, "value");
    DigKey(money, "currencyCode");
  }

  /** `v` is what `.get` gives for a lookup that found `found`: the value, or None when the key is missing. */
  predicate GetGives(found: Option<Json>, v: Json) {
    match found
    case Some(x) => v == x
    case None => v == JNull
  }

  lemma RelatedIdOf(relationships: Json, name: string, id: Json)
    requires RelatedTo(relationships, name, id)
    ensures RelatedId(relationships, name) == Ok(id)
  {
    DigKey(relationships, name);
  }

  lemma {:induction false} TagsSubscripted(tagsData: Json, ids: seq<Json>)
    requires TagsListed(tagsData, ids)
    ensures SubscriptEach(tagsData, "id") == Ok(ids)
  {
    if tagsData.JArray? {
      var xs := tagsData.items;
      forall i | 0 <= i < |xs| ensures HasKey(xs[i], "id") && xs[i].fields["id"] == ids[i] {
        assert Dig(xs[i], ["id"]) == Some(ids[i]);
      }
      var r := SubscriptAll(xs, "id");
      assert r.Ok? && |r.value| == |ids|;
      forall i | 0 <= i < |xs| ensures r.value[i] == ids[i] {
        assert Dig(xs[i], ["id"]) == Some(r.value[i]);
      }
      assert r.value == ids;
    }
  }

  // ---------------------------------------------------------------------------
  // Transaction
  // ---------------------------------------------------------------------------

  /** Transaction.__init__. */
  function MapTransaction(rt: Runtime, data: Json): (r: Result<Transaction, Error>)
    ensures !data.JObject? ==> r == Err(TypeError)
    ensures data.JObject? && "id" !in data.fields ==> r == Err(KeyError("id"))
    ensures HasKey(data, "id") && !HasKey(data, "attributes") ==> r.Err?
    ensures r.Ok? ==> r.value.raw == data && TransactionShape(rt, data, r.value)
    ensures r.Ok? ==> ValidTransaction(rt, r.value)
  {
    var id :- Subscript(data, "id");
    var attributes :- Subscript(data, "attributes");
    var status :- Subscript(attributes, "status");
    var rawText :- Subscript(attributes, "rawText");
    var description :- Subscript(attributes, "description");
    var message :- Subscript(attributes, "message");
    var settledAtText :- Subscript(attributes, "settledAt");
    var settledAt :- OptionalInstant(rt, settledAtText);
    var createdAtText :- Subscript(attributes, "createdAt");
    var createdAt :- FromIsoFormat(rt, createdAtText);
    var amount :- Subscript(attributes, "amount");
    var money :- MoneyOf(rt, amount);
    var relationships :- Subscript(data, "relationships");
    var category :- RelatedId(relationships, "category");
    var parentCategory :- RelatedId(relationships, "parentCategory");
    var tags :- TagIds(relationships);
    var t := Transaction(id, status, status != TransactionSettled, rawText, description, message,
                         settledAt, createdAt, money.0, money.1, category, parentCategory, tags, data);
    // the one-key lookups the shape postcondition is stated with
    DigKey(data, "id"); DigKey(data, "attributes"); DigKey(data, "relationships");
    DigKey(attributes, "status"); DigKey(attributes, "rawText"); DigKey(attributes, "description");
    DigKey(attributes, "message"); DigKey(attributes, "settledAt"); DigKey(attributes, "createdAt");
    DigKey(attributes, "amount");
    Ok(t)
  }

  /**
    The resource `data` holds transaction `t` (its `raw` aside): `t.id` is at "id", the
    attribute and relationship paths the constructor reads give `t`'s fields, and
    `pending` is derived from the status. Any other keys may be present.
  */
  predicate TransactionShape(rt: Runtime, data: Json, t: Transaction) {
    && Dig(data, ["id"]) == Some(t.id)
    && Dig(data, ["attributes"]).Some? && TransactionAttributesShape(rt, Dig(data, ["attributes"]).value, t)
    && Dig(data, ["relationships"]).Some? && TransactionRelationshipsShape(Dig(data, ["relationships"]).value, t)
    && t.pending == (t.status != TransactionSettled)
  }

  predicate TransactionAttributesShape(rt: Runtime, attributes: Json, t: Transaction) {
    && Dig(attributes, ["status"]) == Some(t.status)
    && Dig(attributes, ["rawText"]) == Some(t.rawText)
    && Dig(attributes, ["description"]) == Some(t.description)
    && Dig(attributes, ["message"]) == Some(t.message)
    && SettledFrom(rt, Dig(attributes, ["settledAt"]), t.settledAt)
    && ParsedFrom(rt, Dig(attributes, ["createdAt"]), t.createdAt)
    && MoneyIn(rt, Dig(attributes, ["amount"]), t.amount, t.currency)
  }

  predicate TransactionRelationshipsShape(relationships: Json, t: Transaction) {
    && RelatedTo(relationships, "category", t.category)
    && RelatedTo(relationships, "parentCategory", t.parentCategory)
    && Dig(relationships, ["tags", "data"]).Some? && TagsListed(Dig(relationships, ["tags", "data"]).value, t.tags)
  }

  /** The constructor gives `t` exactly when `t.raw` is the input and the input has the transaction shape of `t`. */
  lemma TransactionMapping(rt: Runtime, data: Json, t: Transaction)
    ensures MapTransaction(rt, data) == Ok(t) <==> t.raw == data && TransactionShape(rt, data, t)
  {
    if t.raw == data && TransactionShape(rt, data, t) {
      DigKey(data, "id"); DigKey(data, "attributes"); DigKey(data, "relationships");
      var attributes := data.fields["attributes"];
      DigKey(attributes, "status"); DigKey(attributes, "rawText"); DigKey(attributes, "description");
      DigKey(attributes, "message"); DigKey(attributes, "settledAt"); DigKey(attributes, "createdAt");
      DigKey(attributes, "amount");
      assert OptionalInstant(rt, attributes.fields["settledAt"]) == Ok(t.settledAt);
      assert FromIsoFormat(rt, attributes.fields["createdAt"]) == Ok(t.createdAt);
      MoneyRead(rt, attributes.fields["amount"], t.amount, t.currency);
      var relationships := data.fields["relationships"];
      RelatedIdOf(relationships, "category", t.category);
      RelatedIdOf(relationships, "parentCategory", t.parentCategory);
      TagsSubscripted(relationships.fields["tags"].fields["data"], t.tags);
    }
  }

  /** What every mapped transaction satisfies: `pending` is derived from `status`, and the parsed values came from accepted input. */
  predicate ValidTransaction(rt: Runtime, t: Transaction) {
    && t.pending == (t.status != TransactionSettled)
    && (t.settledAt.Some? ==> t.settledAt.value.iso != "" && rt.acceptsIsoFormat(t.settledAt.value.iso))
    && rt.acceptsIsoFormat(t.createdAt.iso)
    && FloatConvertible(rt, t.amount.source)
  }

  /** Transaction.format_desc: the description, followed by ": " and the message when the message is truthy. */
  function FormatDesc(rt: Runtime, t: Transaction): (r: string)
    ensures Str(rt, t.description) <= r
    ensures |r| > |Str(rt, t.description)| <==> Truthy(t.message)
    ensures Truthy(t.message) ==> r[|Str(rt, t.description)|..] == ": " + Str(rt, t.message)
  {
    if Truthy(t.message) then Str(rt, t.description) + ": " + Str(rt, t.message)
    else Str(rt, t.description)
  }

  /** format_desc on string attributes: a null or empty message leaves the description alone. */
  lemma FormatDescOfStrings(rt: Runtime, t: Transaction, description: string)
    requires t.description == JString(description)
    requires t.message.JNull? || t.message.JString?
    ensures t.message.JNull? || t.message == JString("") ==> FormatDesc(rt, t) == description
    ensures t.message.JString? && t.message.s != "" ==> FormatDesc(rt, t) == description + ": " + t.message.s
  {
  }

  // ---------------------------------------------------------------------------
  // Account
  // ---------------------------------------------------------------------------

  /** Account.__init__. */
  function MapAccount(rt: Runtime, data: Json): (r: Result<Account, Error>)
    ensures !data.JObject? ==> r == Err(TypeError)
    ensures data.JObject? && "id" !in data.fields ==> r == Err(KeyError("id"))
    ensures HasKey(data, "id") && !HasKey(data, "attributes") ==> r.Err?
    ensures r.Ok? ==> r.value.raw == data && AccountShape(rt, data, r.value)
    ensures r.Ok? ==> ValidAccount(rt, r.value)
  {
    var id :- Subscript(data, "id");
    var attributes :- Subscript(data, "attributes");
    var name :- Subscript(attributes, "displayName");
    var accountType :- Subscript(attributes, "accountType");
    var createdAtText :- Subscript(attributes, "createdAt");
    var createdAt :- FromIsoFormat(rt, createdAtText);
    var balance :- Subscript(attributes, "balance");
    var money :- MoneyOf(rt, balance);
    Ok(Account(id, name, accountType, createdAt, money.0, money.1, data))
  }

  /** The resource `data` holds account `a` (its `raw` aside), other keys allowed. */
  predicate AccountShape(rt: Runtime, data: Json, a: Account) {
    && Dig(data, ["id"]) == Some(a.id)
    && Dig(data, ["attributes", "displayName"]) == Some(a.name)
    && Dig(data, ["attributes", "accountType"]) == Some(a.accountType)
    && ParsedFrom(rt, Dig(data, ["attributes", "createdAt"]), a.createdAt)
    && MoneyIn(rt, Dig(data, ["attributes", "balance"]), a.balance, a.currency)
  }

  /** The constructor gives `a` exactly when `a.raw` is the input and the input has the account shape of `a`. */
  lemma AccountMapping(rt: Runtime, data: Json, a: Account)
    ensures MapAccount(rt, data) == Ok(a) <==> a.raw == data && AccountShape(rt, data, a)
  {
  }

  predicate ValidAccount(rt: Runtime, a: Account) {
    && rt.acceptsIsoFormat(a.createdAt.iso)
    && FloatConvertible(rt, a.balance.source)
  }

  // ---------------------------------------------------------------------------
  // Webhook
  // ---------------------------------------------------------------------------

  /** Webhook.__init__: `url` is required, `description` and `secretKey` are read with `.get`. */
  function MapWebhook(rt: Runtime, data: Json): (r: Result<Webhook, Error>)
    ensures !data.JObject? ==> r == Err(TypeError)
    ensures data.JObject? && "id" !in data.fields ==> r == Err(KeyError("id"))
    ensures HasKey(data, "id") && !HasKey(data, "attributes") ==> r.Err?
    ensures r.Ok? ==> r.value.raw == data && WebhookShape(rt, data, r.value)
    ensures r.Ok? ==> ValidWebhook(rt, r.value)
  {
    var id :- Subscript(data, "id");
    var attributes :- Subscript(data, "attributes");
    var url :- Subscript(attributes, "url");
    // `attributes` was subscripted above, so it is a dict and `.get` cannot raise.
    var description := DictGet(attributes, "description").value;
    var secretKey := DictGet(attributes, "secretKey").value;
    var createdAtText :- Subscript(attributes, "createdAt");
    var createdAt :- FromIsoFormat(rt, createdAtText);
    Ok(Webhook(id, url, description, secretKey, createdAt, data))
  }

  /** The resource `data` holds webhook `w` (its `raw` aside); `description` and `secretKey` may be absent. */
  predicate WebhookShape(rt: Runtime, data: Json, w: Webhook) {
    && Dig(data, ["id"]) == Some(w.id)
    && Dig(data, ["attributes", "url"]) == Some(w.url)
    && GetGives(Dig(data, ["attributes", "description"]), w.description)
    && GetGives(Dig(data, ["attributes", "secretKey"]), w.secretKey)
    && ParsedFrom(rt, Dig(data, ["attributes", "createdAt"]), w.createdAt)
  }

  /** The constructor gives `w` exactly when `w.raw` is the input and the input has the webhook shape of `w`. */
  lemma WebhookMapping(rt: Runtime, data: Json, w: Webhook)
    ensures MapWebhook(rt, data) == Ok(w) <==> w.raw == data && WebhookShape(rt, data, w)
  {
  }

  predicate ValidWebhook(rt: Runtime, w: Webhook) {
    rt.acceptsIsoFormat(w.createdAt.iso)
  }

  // ---------------------------------------------------------------------------
  // WebhookEvent
  // ---------------------------------------------------------------------------

  /** WebhookEvent.__init__: the webhook reference is required, the transaction reference only when its key is present. */
  function MapWebhookEvent(rt: Runtime, data: Json): (r: Result<WebhookEvent, Error>)
    ensures !data.JObject? ==> r == Err(TypeError)
    ensures data.JObject? && "id" !in data.fields ==> r == Err(KeyError("id"))
    ensures HasKey(data, "id") && !HasKey(data, "attributes") ==> r.Err?
    ensures r.Ok? ==> r.value.raw == data && WebhookEventShape(rt, data, r.value)
    ensures r.Ok? ==> ValidWebhookEvent(rt, r.value)
  {
    var id :- Subscript(data, "id");
    var attributes :- Subscript(data, "attributes");
    var eventType :- Subscript(attributes, "eventType");
    var createdAtText :- Subscript(attributes, "createdAt");
    var createdAt :- FromIsoFormat(rt, createdAtText);
    var relationships :- Subscript(data, "relationships");
    var webhookRelation :- Subscript(relationships, "webhook");
    var webhookData :- Subscript(webhookRelation, "data");
    var webhookId :- Subscript(webhookData, "id");
    var transactionId :-
      if HasKey(relationships, "transaction") then
        var transactionRelation := relationships.fields["transaction"];
        var transactionData :- Subscript(transactionRelation, "data");
        Subscript(transactionData, "id")
      else Ok(JNull);
    // the one-key lookups the shape postcondition is stated with
    DigKey(data, "id"); DigKey(data, "attributes"); DigKey(data, "relationships");
    Ok(WebhookEvent(id, eventType, createdAt, webhookId, transactionId, data))
  }

  /**
    The resource `data` holds event `e` (its `raw` aside): the webhook reference is
    required, and `transactionId` is None exactly when there is no "transaction" key.
  */
  predicate WebhookEventShape(rt: Runtime, data: Json, e: WebhookEvent) {
    && Dig(data, ["id"]) == Some(e.id)
    && Dig(data, ["attributes", "eventType"]) == Some(e.eventType)
    && ParsedFrom(rt, Dig(data, ["attributes", "createdAt"]), e.createdAt)
    && Dig(data, ["relationships"]).Some? && WebhookEventRelationshipsShape(Dig(data, ["relationships"]).value, e)
  }

  predicate WebhookEventRelationshipsShape(relationships: Json, e: WebhookEvent) {
    && Dig(relationships, ["webhook", "data", "id"]) == Some(e.webhookId)
    && TransactionReference(relationships, e.transactionId)
  }

  /** `id` is None when there is no "transaction" relationship, and that relationship's data "id" otherwise. */
  predicate TransactionReference(relationships: Json, id: Json) {
    if HasKey(relationships, "transaction") then Dig(relationships, ["transaction", "data", "id"]) == Some(id)
    else id == JNull
  }

  /** The constructor gives `e` exactly when `e.raw` is the input and the input has the event shape of `e`. */
  lemma WebhookEventMapping(rt: Runtime, data: Json, e: WebhookEvent)
    ensures MapWebhookEvent(rt, data) == Ok(e) <==> e.raw == data && WebhookEventShape(rt, data, e)
  {
  }

  predicate ValidWebhookEvent(rt: Runtime, e: WebhookEvent) {
    rt.acceptsIsoFormat(e.createdAt.iso)
  }

  /** Only a missing "transaction" key gives no transaction id: a present reference with null data raises. */
  lemma NullTransactionReferenceFails(rt: Runtime, data: Json)
    requires HasKey(data, "relationships")
    requires HasKey(data.fields["relationships"], "transaction")
    requires Dig(data.fields["relationships"], ["transaction", "data"]) == Some(JNull)
    ensures MapWebhookEvent(rt, data).Err?
  {
  }

  // ---------------------------------------------------------------------------
  // WebhookLog
  // ---------------------------------------------------------------------------

  /**
    WebhookLog.__init__: the event is the WebhookEvent mapping of the "data" field of the
    JSON document in `attributes.request.body`; with no recorded response, both response
    fields are None.
  */
  function MapWebhookLog(rt: Runtime, data: Json): (r: Result<WebhookLog, Error>)
    ensures !data.JObject? ==> r == Err(TypeError)
    ensures data.JObject? && "id" !in data.fields ==> r == Err(KeyError("id"))
    ensures HasKey(data, "id") && !HasKey(data, "attributes") ==> r.Err?
    ensures r.Ok? ==> r.value.raw == data && WebhookLogShape(rt, data, r.value)
    ensures r.Ok? ==> ValidWebhookLog(rt, r.value)
  {
    var id :- Subscript(data, "id");
    var attributes :- Subscript(data, "attributes");
    var event :- DeliveredEvent(rt, attributes);
    var deliveryStatus :- Subscript(attributes, "deliveryStatus");
    var createdAtText :- Subscript(attributes, "createdAt");
    var createdAt :- FromIsoFormat(rt, createdAtText);
    var response :- RecordedResponse(attributes);
    // the one-key lookups the shape postcondition is stated with
    DigKey(data, "id"); DigKey(data, "attributes");
    DigKey(attributes, "deliveryStatus"); DigKey(attributes, "createdAt");
    Ok(WebhookLog(id, event, deliveryStatus, createdAt, response.0, response.1, data))
  }

  /** `WebhookEvent(json.loads(attributes["request"]["body"])["data"])`. */
  function DeliveredEvent(rt: Runtime, attributes: Json): (r: Result<WebhookEvent, Error>)
    ensures r.Ok? ==> CarriesEvent(rt, Dig(attributes, ["request", "body"]), r.value)
  {
    var request :- Subscript(attributes, "request");
    var body :- Subscript(request, "body");
    var document :- Loads(rt, body);
    var eventData :- Subscript(document, "data");
    MapWebhookEvent(rt, eventData)
  }

  /** `response = attributes["response"] or {}`, then `response.get("statusCode")` and `response.get("body")`. */
  function RecordedResponse(attributes: Json): (r: Result<(Json, Json), Error>)
    ensures r.Ok? ==> ResponseGives(Dig(attributes, ["response"]), r.value.0, r.value.1)
  {
    var recorded :- Subscript(attributes, "response");
    var response := Or(recorded, JObject(map[]));
    var responseCode :- DictGet(response, "statusCode");
    var responseBody := DictGet(response, "body").value;  // `response` is a dict by now
    // the one-key lookups the shape postcondition is stated with
    DigKey(attributes, "response"); DigKey(response, "statusCode"); DigKey(response, "body");
    Ok((responseCode, responseBody))
  }

  /** The resource `data` holds log entry `l` (its `raw` aside), other keys allowed. */
  predicate WebhookLogShape(rt: Runtime, data: Json, l: WebhookLog) {
    && Dig(data, ["id"]) == Some(l.id)
    && Dig(data, ["attributes"]).Some? && WebhookLogAttributesShape(rt, Dig(data, ["attributes"]).value, l)
  }

  predicate WebhookLogAttributesShape(rt: Runtime, attributes: Json, l: WebhookLog) {
    && CarriesEvent(rt, Dig(attributes, ["request", "body"]), l.event)
    && Dig(attributes, ["deliveryStatus"]) == Some(l.deliveryStatus)
    && ParsedFrom(rt, Dig(attributes, ["createdAt"]), l.createdAt)
    && ResponseGives(Dig(attributes, ["response"]), l.responseCode, l.responseBody)
  }

  /** The request body is a JSON text whose "data" field maps to event `e`. */
  predicate CarriesEvent(rt: Runtime, body: Option<Json>, e: WebhookEvent) {
    && body.Some? && body.value.JString?
    && rt.loads(body.value.s).Some?
    && var eventData := Dig(rt.loads(body.value.s).value, ["data"]);
    && eventData.Some?
    && MapWebhookEvent(rt, eventData.value) == Ok(e)
  }

  /**
    A response was recorded; when it is falsy both fields are None, and otherwise it is
    a dict whose optional "statusCode" and "body" give them.
  */
  predicate ResponseGives(response: Option<Json>, code: Json, body: Json) {
    && response.Some?
    && if Truthy(response.value) then
         && response.value.JObject?
         && GetGives(Dig(response.value, ["statusCode"]), code)
         && GetGives(Dig(response.value, ["body"]), body)
       else code == JNull && body == JNull
  }

  lemma EventDelivered(rt: Runtime, attributes: Json, e: WebhookEvent)
    requires CarriesEvent(rt, Dig(attributes, ["request", "body"]), e)
    ensures DeliveredEvent(rt, attributes) == Ok(e)
  {
  }

  lemma ResponseRead(attributes: Json, code: Json, body: Json)
    requires ResponseGives(Dig(attributes, ["response"]), code, body)
    ensures RecordedResponse(attributes) == Ok((code, body))
  {
    DigKey(attributes, "response");
    var recorded := attributes.fields["response"];
    DigKey(recorded, "statusCode");
    DigKey(recorded, "body");
  }

  /** The constructor gives `l` exactly when `l.raw` is the input and the input has the log shape of `l`. */
  lemma WebhookLogMapping(rt: Runtime, data: Json, l: WebhookLog)
    ensures MapWebhookLog(rt, data) == Ok(l) <==> l.raw == data && WebhookLogShape(rt, data, l)
  {
    if l.raw == data && WebhookLogShape(rt, data, l) {
      DigKey(data, "id"); DigKey(data, "attributes");
      var attributes := data.fields["attributes"];
      DigKey(attributes, "deliveryStatus"); DigKey(attributes, "createdAt");
      EventDelivered(rt, attributes, l.event);
      ResponseRead(attributes, l.responseCode, l.responseBody);
    }
  }

  predicate ValidWebhookLog(rt: Runtime, l: WebhookLog) {
    && ValidWebhookEvent(rt, l.event)
    && rt.acceptsIsoFormat(l.createdAt.iso)
  }

  // ---------------------------------------------------------------------------
  // Required attributes: a missing one makes the mapping fail
  // ---------------------------------------------------------------------------

  const TransactionAttributes: set<string> :=
    {"status", "rawText", "description", "message", "settledAt", "createdAt", "amount"}
  const AccountAttributes: set<string> := {"displayName", "accountType", "createdAt", "balance"}
  const WebhookAttributes: set<string> := {"url", "createdAt"}
  const WebhookEventAttributes: set<string> := {"eventType", "createdAt"}
  const WebhookLogAttributes: set<string> := {"request", "deliveryStatus", "createdAt", "response"}

  /** `data` has an "attributes" entry, and that entry is not a dict holding `key`. */
  predicate LacksAttribute(data: Json, key: string) {
    HasKey(data, "attributes") && !HasKey(data.fields["attributes"], key)
  }

  lemma TransactionNeedsAttribute(rt: Runtime, data: Json, key: string)
    requires key in TransactionAttributes && LacksAttribute(data, key)
    ensures MapTransaction(rt, data).Err?
  {
  }

  lemma AccountNeedsAttribute(rt: Runtime, data: Json, key: string)
    requires key in AccountAttributes && LacksAttribute(data, key)
    ensures MapAccount(rt, data).Err?
  {
  }

  lemma WebhookNeedsAttribute(rt: Runtime, data: Json, key: string)
    requires key in WebhookAttributes && LacksAttribute(data, key)
    ensures MapWebhook(rt, data).Err?
  {
  }

  lemma WebhookEventNeedsAttribute(rt: Runtime, data: Json, key: string)
    requires key in WebhookEventAttributes && LacksAttribute(data, key)
    ensures MapWebhookEvent(rt, data).Err?
  {
  }

  lemma WebhookLogNeedsAttribute(rt: Runtime, data: Json, key: string)
    requires key in WebhookLogAttributes && LacksAttribute(data, key)
    ensures MapWebhookLog(rt, data).Err?
  {
  }

  // ---------------------------------------------------------------------------
  // Encoders and round trips
  // ---------------------------------------------------------------------------

  /** A relationship object referring to `id`, with null data when there is no reference. */
  function RelationTo(id: Json): Json {
    JObject(map["data" := if id == JNull then JNull else JObject(map["id" := id])])
  }

  /** One resource identifier object per tag id, in order. */
  function TagResources(ids: seq<Json>): seq<Json> {
    seq(|ids|, i requires 0 <= i < |ids| => JObject(map["id" := ids[i]]))
  }

  function EncodeTransactionAttributes(t: Transaction): Json {
    JObject(map[
      "status" := t.status,
      "rawText" := t.rawText,
      "description" := t.description,
      "message" := t.message,
      "settledAt" := if t.settledAt.Some? then JString(t.settledAt.value.iso) else JNull,
      "createdAt" := JString(t.createdAt.iso),
      "amount" := JObject(map["value" := t.amount.source, "currencyCode" := t.currency])])
  }

  function EncodeTransactionRelationships(t: Transaction): Json {
    JObject(map[
      "category" := RelationTo(t.category),
      "parentCategory" := RelationTo(t.parentCategory),
      "tags" := JObject(map["data" := JArray(TagResources(t.tags))])])
  }

  function EncodeTransaction(t: Transaction): Json {
    JObject(map[
      "id" := t.id,
      "attributes" := EncodeTransactionAttributes(t),
      "relationships" := EncodeTransactionRelationships(t)])
  }

  lemma RelationToRelated(relationships: Json, name: string, id: Json)
    requires Dig(relationships, [name]) == Some(RelationTo(id))
    ensures RelatedTo(relationships, name, id)
  {
    if id != JNull {
      assert "id" in JObject(map["id" := id]).fields;
    }
  }

  lemma EncodedTransactionAttributes(rt: Runtime, t: Transaction)
    requires ValidTransaction(rt, t)
    ensures TransactionAttributesShape(rt, EncodeTransactionAttributes(t), t)
  {
  }

  lemma EncodedTransactionRelationships(t: Transaction)
    ensures TransactionRelationshipsShape(EncodeTransactionRelationships(t), t)
  {
    var relationships := EncodeTransactionRelationships(t);
    RelationToRelated(relationships, "category", t.category);
    RelationToRelated(relationships, "parentCategory", t.parentCategory);
    var tagsData := JArray(TagResources(t.tags));
    assert Dig(relationships, ["tags", "data"]) == Some(tagsData);
    assert forall i :: 0 <= i < |t.tags| ==> Dig(TagResources(t.tags)[i], ["id"]) == Some(t.tags[i]);
  }

  lemma EncodedTransaction(rt: Runtime, t: Transaction)
    requires ValidTransaction(rt, t)
    ensures TransactionShape(rt, EncodeTransaction(t), t)
  {
    var data := EncodeTransaction(t);
    EncodedTransactionAttributes(rt, t);
    EncodedTransactionRelationships(t);
    DigKey(data, "id"); DigKey(data, "attributes"); DigKey(data, "relationships");
  }

  /** Mapping the encoding of a valid transaction gives the same transaction, with the encoding as its raw data. */
  lemma {:induction false} TransactionRoundTrip(rt: Runtime, t: Transaction)
    requires ValidTransaction(rt, t)
    ensures MapTransaction(rt, EncodeTransaction(t)) == Ok(t.(raw := EncodeTransaction(t)))
  {
    var data := EncodeTransaction(t);
    var mapped := t.(raw := data);
    EncodedTransaction(rt, mapped);
    assert EncodeTransaction(mapped) == data;
    TransactionMapping(rt, data, mapped);
  }

  function EncodeAccount(a: Account): Json {
    JObject(map[
      "id" := a.id,
      "attributes" := JObject(map[
        "displayName" := a.name,
        "accountType" := a.accountType,
        "createdAt" := JString(a.createdAt.iso),
        "balance" := JObject(map["value" := a.balance.source, "currencyCode" := a.currency])])])
  }

  lemma AccountRoundTrip(rt: Runtime, a: Account)
    requires ValidAccount(rt, a)
    ensures MapAccount(rt, EncodeAccount(a)) == Ok(a.(raw := EncodeAccount(a)))
  {
  }

  function EncodeWebhook(w: Webhook): Json {
    JObject(map[
      "id" := w.id,
      "attributes" := JObject(map[
        "url" := w.url,
        "description" := w.description,
        "secretKey" := w.secretKey,
        "createdAt" := JString(w.createdAt.iso)])])
  }

  lemma WebhookRoundTrip(rt: Runtime, w: Webhook)
    requires ValidWebhook(rt, w)
    ensures MapWebhook(rt, EncodeWebhook(w)) == Ok(w.(raw := EncodeWebhook(w)))
  {
  }

  /** The webhook reference, and the transaction reference only when the event has one. */
  function EncodeWebhookEventRelationships(e: WebhookEvent): Json {
    var webhook := map["webhook" := JObject(map["data" := JObject(map["id" := e.webhookId])])];
    JObject(
      if e.transactionId == JNull then webhook
      else webhook["transaction" := JObject(map["data" := JObject(map["id" := e.transactionId])])])
  }

  function EncodeWebhookEvent(e: WebhookEvent): Json {
    JObject(map[
      "id" := e.id,
      "attributes" := JObject(map[
        "eventType" := e.eventType,
        "createdAt" := JString(e.createdAt.iso)]),
      "relationships" := EncodeWebhookEventRelationships(e)])
  }

  lemma EncodedWebhookEvent(rt: Runtime, e: WebhookEvent)
    requires ValidWebhookEvent(rt, e)
    ensures WebhookEventShape(rt, EncodeWebhookEvent(e), e)
  {
    var data := EncodeWebhookEvent(e);
    assert WebhookEventRelationshipsShape(EncodeWebhookEventRelationships(e), e);
    DigKey(data, "id"); DigKey(data, "attributes"); DigKey(data, "relationships");
  }

  lemma {:induction false} WebhookEventRoundTrip(rt: Runtime, e: WebhookEvent)
    requires ValidWebhookEvent(rt, e)
    ensures MapWebhookEvent(rt, EncodeWebhookEvent(e)) == Ok(e.(raw := EncodeWebhookEvent(e)))
  {
    var data := EncodeWebhookEvent(e);
    var mapped := e.(raw := data);
    EncodedWebhookEvent(rt, mapped);
    assert EncodeWebhookEvent(mapped) == data;
    WebhookEventMapping(rt, data, mapped);
  }

  /** The recorded response: none when both response fields are None. */
  function EncodeResponse(code: Json, body: Json): Json {
    if code == JNull && body == JNull then JNull
    else JObject(map["statusCode" := code, "body" := body])
  }

  function EncodeWebhookLogAttributes(l: WebhookLog, body: string): Json {
    JObject(map[
      "request" := JObject(map["body" := JString(body)]),
      "deliveryStatus" := l.deliveryStatus,
      "createdAt" := JString(l.createdAt.iso),
      "response" := EncodeResponse(l.responseCode, l.responseBody)])
  }

  /** A log entry whose request body is the text `body`. */
  function EncodeWebhookLog(l: WebhookLog, body: string): Json {
    JObject(map["id" := l.id, "attributes" := EncodeWebhookLogAttributes(l, body)])
  }

  /** The encoded attributes of a log entry, for any event data that `body` decodes to and that maps to the entry's event. */
  lemma EncodedWebhookLogAttributes(rt: Runtime, l: WebhookLog, body: string, eventData: Json)
    requires rt.acceptsIsoFormat(l.createdAt.iso)
    requires rt.loads(body) == Some(JObject(map["data" := eventData]))
    requires MapWebhookEvent(rt, eventData) == Ok(l.event)
    ensures WebhookLogAttributesShape(rt, EncodeWebhookLogAttributes(l, body), l)
  {
    var attributes := EncodeWebhookLogAttributes(l, body);
    assert Dig(attributes, ["request", "body"]) == Some(JString(body));
    assert Dig(JObject(map["data" := eventData]), ["data"]) == Some(eventData);
    EncodedResponse(l.responseCode, l.responseBody);
    assert Dig(attributes, ["response"]) == Some(EncodeResponse(l.responseCode, l.responseBody));
  }

  lemma EncodedResponse(code: Json, body: Json)
    ensures ResponseGives(Some(EncodeResponse(code, body)), code, body)
  {
    if !(code == JNull && body == JNull) {
      assert "body" in EncodeResponse(code, body).fields;
    }
  }

  /** The round trip, when `body` is a JSON text whose "data" field encodes the log's event. */
  lemma {:induction false} WebhookLogRoundTrip(rt: Runtime, l: WebhookLog, body: string)
    requires ValidWebhookLog(rt, l)
    requires rt.loads(body) == Some(JObject(map["data" := EncodeWebhookEvent(l.event)]))
    ensures MapWebhookLog(rt, EncodeWebhookLog(l, body))
         == Ok(l.(event := l.event.(raw := EncodeWebhookEvent(l.event)), raw := EncodeWebhookLog(l, body)))
  {
    var data := EncodeWebhookLog(l, body);
    var mapped := l.(event := l.event.(raw := EncodeWebhookEvent(l.event)), raw := data);
    WebhookEventRoundTrip(rt, l.event);
    EncodedWebhookLogAttributes(rt, mapped, body, EncodeWebhookEvent(l.event));
    assert EncodeWebhookLog(mapped, body) == data;
    WebhookLogMapping(rt, data, mapped);
  }

  // ---------------------------------------------------------------------------
  // A worked example: a settled purchase with no category and no tags
  // ---------------------------------------------------------------------------

  const CoffeeResource: Json := JObject(map[
    "id" := JString("t1"),
    "attributes" := JObject(map[
      "status" := JString("SETTLED"),
      "rawText" := JNull,
      "description" := JString("Coffee"),
      "message" := JNull,
      "settledAt" := JString("2023-01-01T10:00:00+10:00"),
      "createdAt" := JString("2023-01-01T09:59:00+10:00"),
      "amount" := JObject(map["value" := JString("-4.50"), "currencyCode" := JString("AUD")])]),
    "relationships" := JObject(map[
      "category" := JObject(map["data" := JNull]),
      "parentCategory" := JObject(map["data" := JNull]),
      "tags" := JObject(map["data" := JArray([])])])])

  lemma CoffeeExample(rt: Runtime)
    requires rt.acceptsIsoFormat("2023-01-01T10:00:00+10:00")
    requires rt.acceptsIsoFormat("2023-01-01T09:59:00+10:00")
    requires rt.acceptsFloat("-4.50")
    ensures var r := MapTransaction(rt, CoffeeResource);
      && r.Ok?
      && r.value.id == JString("t1")
      && !r.value.pending
      && r.value.amount == Float(JString("-4.50")) && r.value.currency == JString("AUD")
      && r.value.settledAt == Some(Instant("2023-01-01T10:00:00+10:00"))
      && r.value.category == JNull && r.value.parentCategory == JNull
      && r.value.tags == []
      && FormatDesc(rt, r.value) == "Coffee"
  {
    var t := Transaction(
      JString("t1"), JString("SETTLED"), false, JNull, JString("Coffee"), JNull,
      Some(Instant("2023-01-01T10:00:00+10:00")), Instant("2023-01-01T09:59:00+10:00"),
      Float(JString("-4.50")), JString("AUD"), JNull, JNull, [], CoffeeResource);
    assert TagResources([]) == [];
    assert EncodeTransaction(t) == CoffeeResource;
    TransactionRoundTrip(rt, t);
  }
}
