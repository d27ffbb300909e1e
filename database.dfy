/**
 * The database collaborator, as the call flow sees it. Its SQL is not part
 * of this model: each query the handler issues becomes a function on a
 * `Db` value that states its effect on the records the flow reads back
 * (customers by phone, details by customer id, contacts by customer and
 * phone, receipts by id), and each write the flow never reads back is kept
 * as a log of the requests made.
 */
module Database {
  import opened Wrappers
  import opened Sessions

  /** A customer row; `phone` is its unique key. */
  datatype Customer = Customer(
    id: nat,
    phone: string,
    tzId: Option<string>,
    ownerAge: Option<int>,
    gender: Option<string>)

  /**
   * A customer_details row. `Null` is SQL NULL; the birth years are the list
   * the flow serialises, kept as the value it serialised.
   */
  datatype Details = Details(numChildren: Value, birthYears: Value, spouse1: Value, spouse2: Value)

  const EmptyDetails := Details(Null, Null, Null, Null)

  /** A contact row, keyed by (owning customer id, phone). */
  datatype Contact = Contact(id: nat, tzId: Value, notes: Value)

  datatype ReceiptStatus = Pending | Completed | Failed

  /** What the receipt provider's `create_receipt` answered. */
  datatype ProviderResult = ProviderResult(status: bool, docId: Option<string>, docNum: Option<string>)

  datatype Receipt = Receipt(
    customerId: nat,
    callId: string,
    amount: int,
    description: string,
    clientPhone: Value,
    clientTz: Value,
    contactId: Option<nat>,
    status: ReceiptStatus,
    docId: Option<string>,
    docNum: Option<string>,
    response: Option<ProviderResult>)

  datatype Message = Message(customerId: nat, callId: string, file: string)

  /** One `update_call_data(call_id, {name: value})` request. */
  datatype CallDataWrite = CallDataWrite(callId: string, name: string, value: string)

  datatype Db = Db(
    customers: map<string, Customer>,
    details: map<nat, Details>,
    contacts: map<(nat, Value), Contact>,
    receipts: seq<Receipt>,          // receipt id i is receipts[i - 1]
    messages: seq<Message>,
    reportRequests: seq<nat>,
    callLog: seq<map<string, Value>>,
    callData: seq<CallDataWrite>,
    nextCustomerId: nat)

  /**
   * The key constraints the schema puts on the customer tables: a customer
   * is found under its own phone (the unique key), customer ids are
   * distinct and below the next id to be assigned (the autoincrement
   * counter), and every details row belongs to an id already assigned.
   */
  predicate DbValid(db: Db)
  {
    && (forall p | p in db.customers :: db.customers[p].phone == p && db.customers[p].id < db.nextCustomerId)
    && (forall p, q | p in db.customers && q in db.customers && db.customers[p].id == db.customers[q].id :: p == q)
    && (forall id | id in db.details :: id < db.nextCustomerId)
  }

  /** `db` and `db'` agree on everything the key constraints read. */
  predicate SameCustomers(db: Db, db': Db)
  {
    db'.customers == db.customers && db'.details == db.details && db'.nextCustomerId == db.nextCustomerId
  }

  /** A write that leaves the customer tables and the id counter alone keeps the key constraints. */
  lemma SameCustomersKeepDbValid(db: Db, db': Db)
    requires DbValid(db) && SameCustomers(db, db')
    ensures DbValid(db')
  {
  }

  /** `get_customer_by_phone`: only a string phone can match a row. */
  function Lookup(db: Db, phone: Value): (c: Option<Customer>)
    ensures c.Some? <==> phone.Str? && phone.s in db.customers
    ensures c.Some? ==> c.value == db.customers[phone.s]
  {
    if phone.Str? && phone.s in db.customers then Some(db.customers[phone.s]) else None
  }

  /** `get_customer_details`. */
  function DetailsOf(db: Db, customerId: nat): Option<Details>
  {
    if customerId in db.details then Some(db.details[customerId]) else None
  }

  /**
   * `create_customer(phone_number=phone)`: a new customer with no profile
   * fields, together with its empty details row.
   */
  function CreateCustomer(db: Db, phone: string): (db': Db)
    requires phone !in db.customers
    ensures phone in db'.customers
    ensures db'.customers[phone] == Customer(db.nextCustomerId, phone, None, None, None)
    ensures db'.details == db.details[db.nextCustomerId := EmptyDetails]
    ensures forall p | p in db.customers :: p in db'.customers && db'.customers[p] == db.customers[p]
    ensures db'.customers.Keys == db.customers.Keys + {phone}
    ensures db'.receipts == db.receipts && db'.contacts == db.contacts
    ensures DbValid(db) ==> DbValid(db')
    ensures DbValid(db) ==> forall id | id in db.details :: id in db'.details && db'.details[id] == db.details[id]
  {
    var id := db.nextCustomerId;
    db.(customers := db.customers[phone := Customer(id, phone, None, None, None)],
        details := db.details[id := EmptyDetails],
        nextCustomerId := id + 1)
  }

  /** `update_customer_profile(id, tz_id=tz)`. */
  function SetTzId(db: Db, phone: string, tz: string): (db': Db)
    requires phone in db.customers
    ensures db'.customers == db.customers[phone := db.customers[phone].(tzId := Some(tz))]
    ensures db' == db.(customers := db'.customers)
    ensures DbValid(db) ==> DbValid(db')
  {
    db.(customers := db.customers[phone := db.customers[phone].(tzId := Some(tz))])
  }

  /** `update_customer_profile(id, owner_age=age)`. */
  function SetOwnerAge(db: Db, phone: string, age: int): (db': Db)
    requires phone in db.customers
    ensures db'.customers == db.customers[phone := db.customers[phone].(ownerAge := Some(age))]
    ensures db' == db.(customers := db'.customers)
    ensures DbValid(db) ==> DbValid(db')
  {
    db.(customers := db.customers[phone := db.customers[phone].(ownerAge := Some(age))])
  }

  /** `update_customer_profile(id, gender=g)`. */
  function SetGender(db: Db, phone: string, gender: string): (db': Db)
    requires phone in db.customers
    ensures db'.customers == db.customers[phone := db.customers[phone].(gender := Some(gender))]
    ensures db' == db.(customers := db'.customers)
    ensures DbValid(db) ==> DbValid(db')
  {
    db.(customers := db.customers[phone := db.customers[phone].(gender := Some(gender))])
  }

  /** `update_customer_details`: one write of all four fields. */
  function UpdateDetails(db: Db, customerId: nat, d: Details): (db': Db)
    ensures DetailsOf(db', customerId) == Some(d)
    ensures forall id | id != customerId :: DetailsOf(db', id) == DetailsOf(db, id)
    ensures db' == db.(details := db'.details)
    ensures DbValid(db) && customerId < db.nextCustomerId ==> DbValid(db')
  {
    db.(details := db.details[customerId := d])
  }

  /** Field merge of an upsert: a non-null new value wins, `None` keeps the old one. */
  function Merge(prior: Value, given: Value): Value
  {
    if given != Null then given else prior
  }

  /** An upsert onto an existing contact: same id, non-null fields replaced. */
  function MergeContact(c: Contact, tz: Value, notes: Value): (c': Contact)
    ensures c'.id == c.id
  {
    Contact(c.id, Merge(c.tzId, tz), Merge(c.notes, notes))
  }

  /**
   * `upsert_contact`: a contact for (customer, phone) is merged into an
   * existing one or inserted with the next id.
   */
  function UpsertContact(db: Db, customerId: nat, phone: Value, tz: Value, notes: Value): (db': Db)
    ensures db' == db.(contacts := db'.contacts)
    ensures (customerId, phone) in db'.contacts
    ensures db'.contacts == db.contacts[(customerId, phone) := db'.contacts[(customerId, phone)]]
    ensures (customerId, phone) in db.contacts ==>
              db'.contacts[(customerId, phone)] == MergeContact(db.contacts[(customerId, phone)], tz, notes)
    ensures (customerId, phone) !in db.contacts ==>
              db'.contacts[(customerId, phone)] == Contact(|db.contacts| + 1, tz, notes)
  {
    var key := (customerId, phone);
    if key in db.contacts then
      db.(contacts := db.contacts[key := MergeContact(db.contacts[key], tz, notes)])
    else
      db.(contacts := db.contacts[key := Contact(|db.contacts| + 1, tz, notes)])
  }

  /** `get_contact_by_phone(customer_id, phone)`. */
  function ContactByPhone(db: Db, customerId: nat, phone: Value): (c: Option<Contact>)
    ensures c.Some? <==> (customerId, phone) in db.contacts
  {
    if (customerId, phone) in db.contacts then Some(db.contacts[(customerId, phone)]) else None
  }

  /** `create_receipt`: the new row gets id `|receipts| + 1`. */
  function AddReceipt(db: Db, r: Receipt): (db': Db)
    ensures db'.receipts == db.receipts + [r]
    ensures db' == db.(receipts := db'.receipts)
  {
    db.(receipts := db.receipts + [r])
  }

  /** `update_receipt(id, ...)`: replaces the row with id `id`. */
  function UpdateReceipt(db: Db, id: nat, r: Receipt): (db': Db)
    requires 1 <= id <= |db.receipts|
    ensures |db'.receipts| == |db.receipts| && db'.receipts[id - 1] == r
    ensures forall i | 0 <= i < |db.receipts| && i != id - 1 :: db'.receipts[i] == db.receipts[i]
    ensures db' == db.(receipts := db'.receipts)
  {
    db.(receipts := db.receipts[id - 1 := r])
  }

  /** `save_message(customer_id, call_id, message_file=..., duration=None)`. */
  function SaveMessage(db: Db, customerId: nat, callId: string, file: string): (db': Db)
    ensures db'.messages == db.messages + [Message(customerId, callId, file)]
    ensures db' == db.(messages := db'.messages)
  {
    db.(messages := db.messages + [Message(customerId, callId, file)])
  }

  /** `request_annual_report(customer_id)`. */
  function RequestAnnualReport(db: Db, customerId: nat): (db': Db)
    ensures db'.reportRequests == db.reportRequests + [customerId]
    ensures db' == db.(reportRequests := db'.reportRequests)
  {
    db.(reportRequests := db.reportRequests + [customerId])
  }

  /** `log_call(call_params)`. */
  function LogCall(db: Db, params: map<string, Value>): (db': Db)
    ensures db'.callLog == db.callLog + [params]
    ensures db' == db.(callLog := db'.callLog)
  {
    db.(callLog := db.callLog + [params])
  }

  /** `update_call_data(call_id, {name: value})`. */
  function RecordCallData(db: Db, callId: string, name: string, value: string): (db': Db)
    ensures db'.callData == db.callData + [CallDataWrite(callId, name, value)]
    ensures db' == db.(callData := db'.callData)
  {
    db.(callData := db.callData + [CallDataWrite(callId, name, value)])
  }

  /**
   * Saving the same contact twice leaves the same contacts as saving it once
   * (the upsert is idempotent for the arguments the flow passes).
   */
  lemma UpsertContactIdempotent(db: Db, customerId: nat, phone: Value, tz: Value, notes: Value)
    ensures var once := UpsertContact(db, customerId, phone, tz, notes);
            UpsertContact(once, customerId, phone, tz, notes) == once
  {
    var once := UpsertContact(db, customerId, phone, tz, notes);
    var twice := UpsertContact(once, customerId, phone, tz, notes);
    var key := (customerId, phone);
    assert twice.contacts[key] == once.contacts[key];
    assert twice.contacts == once.contacts;
  }
}
