# gaepagseguro in Dafny

A model of the payment logic of `gaepagseguro`, a Google App Engine library
that builds checkout requests for the PagSeguro payment gateway and keeps each
payment's history in the datastore. The model covers these parts:

- **Statuses and entities** (`model.dfy`): the ten payment statuses, the access-data, payment,
  log, item and user nodes, and the three typed arcs. Amounts are integer cents.
- **Datastore** (`store.dfy`): a `Store` class with one table per node kind, the arcs in
  creation order and one id counter. `Put` writes one entity and `Commit` writes a batch.
  Beside the class are the graph queries the library reads: a payment's log
  history, its items, and an owner's payments.
- **Access data** (`admin.dfy`): the singleton record that is found, or created or
  overwritten in place.
- **Validation** (`validation.dfy`): field rules of the address and client forms, the
  full-name rule, and the merge of every failing field into one error map.
- **Staging** (`save.dfy`): what each save command hands to the datastore, together with
  lemmas saying what writing it does to the tables.
- **Checkout** (`connection.dfy`): the request parameters, the rule that accepts the
  gateway's answer, and the whole GeneratePayment chain.
- **Notifications** (`update.dfy`): the gateway's status-code table, reading a notification,
  and updating the notified payment with one more log.
- **External payments** (`external.dfy`): a transaction the application did not start,
  which updates a payment stored with the same code or records a new one with its items,
  log and owner.
- **Facade helpers** (`facade.dfy`, `home.dfy`): status labels, the checkout URL, the
  choice of payment search, command defaults, and the example application's status message.

A log's status has type `Status`, so every log carries one of STATUSES by construction.

Commands that write are methods on the `Store` and carry `modifies` clauses.
Each one is specified by a function over the tables (`AfterGenerate`,
`AfterUpdate`, `AfterExternal`), and lemmas prove what those functions keep:
- every arc leads to stored nodes and no key reaches the id counter
  (`TablesValid`);
- the last log of every payment carries the payment's current status
  (`LogsConsistent`).

A command's outcome is `Done(value)`, `Failed(errors)` (the command framework's
CommandExecutionException with its error map) or `Raised(name)` (any other
Python exception). Ids are natural numbers taken from the store's counter.
Several things become parameters:
- the HTTP exchanges and the XML parser;
- the e-mail and CEP checks of the forms library;
- the already-validated item forms.

Where the repository's prose and its code differ, the model follows the code:
- contacting the gateway does not set the payment's `code`;
- every notification appends a log, even when the status has not changed;
- GeneratePayment stores the CREATED payment, its items, its first log and its arcs
  before it contacts the gateway, because the request carries the stored payment's key.
  A refused or unencodable payment therefore stays in the store as CREATED.

The one exception is the zero-item order recorded under "## Findings". The
validation step and the payment generation use the corrected rule, so an order of
no item fails with the `item_number` error. On every order with at least one item,
the corrected rule and the code's own rule agree (`ValidateAgreesAsWritten`).

The writing commands run on any valid store, including one that holds a payment
saved without a log. Log consistency is kept whenever it held before.

## Model

| member | source | states |
|---|---|---|
| `Text.NatToString` | gaepagseguro/connection_commands.py:81 | The text of a key id is a non-empty digit string with no leading zero except for 0. |
| `Text.NatRoundTrip` | gaepagseguro/connection_commands.py:81 | Parsing the text of an id gives the id back. |
| `Text.NatToStringInjective` | gaepagseguro/connection_commands.py:89-90 | Distinct ids are sent as distinct texts. |
| `Text.IntRoundTrip` | gaepagseguro/connection_commands.py:93 | `unicode(quantity)` reads back as the same integer, negative ones included. |
| `Text.CentsRoundTrip` | gaepagseguro/connection_commands.py:92 | The `'%.2f'` text of any amount in cents reads back as that amount, negative amounts included. |
| `PagSegModel.StatusFromName` | gaepagseguro/model.py:8-21 | A string read as a status is exactly that status's stored name. |
| `PagSegModel.StatusesClosed` | gaepagseguro/model.py:19-21 | STATUSES has ten entries, all distinct, and every status is among them. |
| `PagSegModel.StatusNameRoundTrip` | gaepagseguro/model.py:8-18 | Reading a status's name gives the status back, so the ten names are distinct. |
| `PagSegModel.StatusNamesAreTheChoices` | gaepagseguro/model.py:30 | A string passes `choices=STATUSES` exactly when it is the name of some status. |
| `PagSegModel.NewPayment` | gaepagseguro/model.py:33-38 | A new payment is CREATED and has no code, total or net amount. |
| `PagSegModel.ValidItemTotalBounds` | gaepagseguro/model.py:65-71 | A valid item's total is at least its price, at least 0.01 and at most 9999999.00 × 999. |
| `PagSegModel.SumTotalsAppend` | gaepagseguro/save_commands.py:43 | The sum of item totals over two lists joined is the sum of the two sums. |
| `PagSegModel.SumOfValidItems` | gaepagseguro/model.py:65-71 | n valid items total at least n cents. |
| `Datastore.ApplyAllConcat` | gaepagseguro/save_commands.py:45-47 | Writing one batch then another equals writing the two joined. |
| `Datastore.HistoryConcat` | gaepagseguro/model.py:46-48 | A payment's log history over two arc lists joined is the two histories joined. |
| `Datastore.HistoryKeepsOnNewLogs` | gaepagseguro/model.py:46-48 | Adding logs without changing stored ones leaves every history unchanged. |
| `Datastore.HistoryOfUnlinked` | gaepagseguro/model.py:46-48 | A payment that no arc leaves has an empty history. |
| `Datastore.LogAppended` | gaepagseguro/save_commands.py:75-80 | One new log with its arc keeps every arc resolved and appends the log's status to that payment's history only. |
| `Datastore.ItemsOfConcat` | gaepagseguro/model.py:74-79 | A payment's items over two item-arc lists joined are the two item lists joined. |
| `Datastore.ItemsOfKeepsOnNewItems` | gaepagseguro/model.py:74-79 | Adding item nodes without changing stored ones leaves every payment's items unchanged. |
| `Datastore.ItemsOfUnlinked` | gaepagseguro/model.py:74-79 | A payment that no item arc leaves has no items. |
| `Datastore.PaymentsOfConcat` | gaepagseguro/model.py:51-55 | An owner's payments over two owner-arc lists joined are the two lists joined. |
| `Datastore.Store.Put` | gaepagseguro/update_commands.py:124 | One put changes only that entity's table, and leaves the id counter and the access data unchanged. |
| `Datastore.Store.Commit` | gaepagseguro/save_commands.py:45-47 | A batch put writes its entities in order, and leaves the id counter and the access data unchanged. |
| `Datastore.Store.Reserve` | gaepagseguro/update_commands.py:124 | The ids handed out are the counter's next `count` values, and the counter moves past them. |
| `Commands.KeyNameInjective` | gaepagseguro/validation_commands.py:112-125 | Distinct error keys have distinct names, so no two errors collide in the flat error map. |
| `AdminCommands.FirstOrNone` | gaepagseguro/admin_commands.py:12-14 | The result is none exactly when there is no record, and the first record otherwise. |
| `AdminCommands.FindAccessData` | gaepagseguro/admin_commands.py:8-14 | Finding gives none on an empty store and the first record otherwise, and changes nothing. |
| `AdminCommands.Upserted` | gaepagseguro/admin_commands.py:23-29 | From no record, it creates one with the given email and token. Otherwise the first record takes them, with no record added and the others unchanged. |
| `AdminCommands.CreateOrUpdateAccessData` | gaepagseguro/admin_commands.py:17-32 | The staged record holds the given email and token, the records become `Upserted`, and nothing else in the store may change. |
| `AdminCommands.FindAfterUpsert` | gaepagseguro/admin_commands.py:23-29 | After create-or-update, find returns a record with the given email and token. |
| `AdminCommands.UpsertKeepsSingleton` | gaepagseguro/admin_commands.py:25-29 | Create-or-update adds a record only to an empty store. |
| `AdminCommands.RepeatedUpsertsLeaveLatest` | gaepagseguro/admin_commands.py:23-29 | From at most one record, any non-empty series of calls leaves exactly one record, holding the last call's values. |
| `ValidationCommands.StringFieldError` | gaepagseguro/validation_commands.py:36-48 | A string field has no error exactly when it is empty and optional, or its length is within the rule. An empty required field gets "Required field". |
| `ValidationCommands.EmailError` | gaepagseguro/validation_commands.py:47 | An e-mail has no error exactly when it is non-empty, at most 60 long and passes the e-mail check. |
| `ValidationCommands.LongEmailExample` | gaepagseguro/validation_commands.py:47 | The test's well-formed 61-character address gets "Has 61 characters and it must have 60 or less". |
| `ValidationCommands.CepError` | gaepagseguro/validation_commands.py:39 | A CEP has no error exactly when it is non-empty and passes the CEP check. |
| `ValidationCommands.FullNameMeansInnerSpace` | gaepagseguro/validation_commands.py:52 | A full name has at least three characters. On one line, it is full exactly when a space lies strictly inside it. |
| `ValidationCommands.FullNameExamples` | gaepagseguro/validation_commands.py:52-53 | "Renzo Nuccitelli" and "Jhon Doe" are full names, while "Renzo" and "" are not. |
| `ValidationCommands.ClientErrors` | gaepagseguro/validation_commands.py:46-54 | The e-mail is reported exactly when invalid. The name is reported exactly when it is not full or is longer than 50. A name that is not full always gets the full-name message, replacing any other. No error means the client is valid. |
| `ValidationCommands.AddressFieldError` | gaepagseguro/validation_commands.py:35-42 | Each address field is reported exactly when its rule fails. |
| `ValidationCommands.AddressErrors` | gaepagseguro/validation_commands.py:35-43 | The address errors name exactly the failing fields, each with its own message, without one check stopping another. |
| `ValidationCommands.AddressErrorsEmpty` | gaepagseguro/validation_commands.py:35-43 | There is no address error exactly when every field is valid. |
| `ValidationCommands.AddressErrorsExampleKeys` | gaepagseguro/validation_commands.py:35-42 | The broken address of the state test reports exactly street, number, postal code, town and state. |
| `ValidationCommands.AddressErrorsExampleMessages` | gaepagseguro/validation_commands.py:36-41 | In that example, street, town and state carry the required, too-short and not-exactly messages. |
| `ValidationCommands.ItemErrorsOf` | gaepagseguro/validation_commands.py:120 | There is one error map per item command, aligned by position. |
| `ValidationCommands.ModelsOf` | gaepagseguro/validation_commands.py:109 | There is one item model per item command, in input order. |
| `ValidationCommands.FieldMessages` | gaepagseguro/validation_commands.py:112-114 | The field errors are the union of the client and address errors, and any key in both takes the address's message. |
| `ValidationCommands.ExtraErrors` | gaepagseguro/validation_commands.py:115-124 | `access_data` appears exactly when no access data is stored, and `item_number` exactly when no item was given. `items` appears exactly when some item failed, and then holds every item's errors. |
| `ValidationCommands.FailureErrors` | gaepagseguro/validation_commands.py:112-125 | The failure map holds the field errors plus the extra errors, each with its own value. |
| `ValidationCommands.FailureErrorsExtras` | gaepagseguro/validation_commands.py:112-124 | On the failure path each extra key appears under its own condition with its message, and every form key keeps its field error. |
| `ValidationCommands.FailureErrorsEmpty` | gaepagseguro/validation_commands.py:112-126 | The failure map is empty exactly when no field fails, access data exists, an item was given and no item failed. |
| `ValidationCommands.FieldMessagesEmpty` | gaepagseguro/validation_commands.py:106-114 | No field error is reported exactly when the client and the address are both valid. |
| `ValidationCommands.ValidateAsWritten` | gaepagseguro/validation_commands.py:106-126 | As the code stands, validation succeeds exactly when the client, the address, the access data and every item are valid, so an empty item list succeeds. It never raises. |
| `ValidationCommands.ZeroItemsAcceptedAsWritten` | gaepagseguro/validation_commands.py:118-119 | As written, valid data with no items is accepted with an empty item list. |
| `ValidationCommands.ZeroItemsCounterexample` | gaepagseguro/validation_commands.py:118-119 | A concrete client, address and access data with no items pass as-written validation. |
| `ValidationCommands.Validate` | gaepagseguro/validation_commands.py:106-126 | Validation succeeds exactly when everything is valid and at least one item is given, returning every model in order with the stored access data. Otherwise it fails with a non-empty error map, and zero items always yield `item_number`. |
| `ValidationCommands.ValidateAgreesAsWritten` | gaepagseguro/validation_commands.py:106-126 | With at least one item, the corrected validation equals the code's own rule on every input. With no item, it fails. |
| `ValidationCommands.ValidatePagseguroData` | gaepagseguro/validation_commands.py:90-126 | The command validates against the store's first access-data record with the corrected rule. With at least one item, its outcome is the code's own rule `ValidateAsWritten`. |
| `ValidationCommands.CollectErrors` | gaepagseguro/validation_commands.py:111-125 | The step-by-step filling of `errors`, with its early-exit loop over the item errors, yields the failure map. |
| `SaveCommands.ItemMap` | gaepagseguro/save_commands.py:46 | The staged items take exactly the keys `first` to `first + n - 1`, the i-th item at `first + i`. |
| `SaveCommands.ApplyItemRows` | gaepagseguro/save_commands.py:46 | Writing the item rows adds exactly those items to the item table. |
| `SaveCommands.SavePagseguroData` | gaepagseguro/save_commands.py:34-47 | The payment is CREATED, with no code and a total equal to the sum of the item totals. The batch is the payment followed by the items in order, and the previous step's data pass through. |
| `SaveCommands.SavedDataWritten` | gaepagseguro/save_commands.py:45-47 | Writing that batch stores the payment and adds the items, and nothing else. |
| `SaveCommands.SavePaymentToItemsArcs` | gaepagseguro/save_commands.py:54-61 | There is exactly one payment→item arc per item, in item order. |
| `SaveCommands.ItemArcsWritten` | gaepagseguro/save_commands.py:59-61 | Writing them appends those arcs to the item arcs. |
| `SaveCommands.ItemsOfItemArcs` | gaepagseguro/save_commands.py:61 | Following the new arcs from the payment yields its items in order, and from any other payment nothing. |
| `SaveCommands.ItemsAppended` | gaepagseguro/save_commands.py:59-61 | After the new items and arcs, the new payment's items are the list in order and every other payment's items are unchanged. |
| `SaveCommands.LogRowsWritten` | gaepagseguro/save_commands.py:79-80 | A log-and-arc write stores one log with the status and appends one arc from the payment to it. |
| `SaveCommands.SavePaymentToLog` | gaepagseguro/save_commands.py:75-80 | A log is added only when the previous result is a payment, and then exactly one, carrying the payment's current status. |
| `SaveCommands.UpdatePaymentAndSaveLog` | gaepagseguro/save_commands.py:83-102 | The payment is saved, followed by one log with its current status and the arc to it. |
| `SaveCommands.UpdateWritten` | gaepagseguro/save_commands.py:89-94 | Writing the update stores the payment, one log and one arc (`AfterUpdate`), and nothing else. |
| `SaveCommands.UpdateKeepsValid` | gaepagseguro/save_commands.py:89-94 | An update under a fresh log key keeps the tables valid. |
| `SaveCommands.UpdateHistory` | gaepagseguro/save_commands.py:89-94 | An update appends the payment's status to its own history and leaves every other history unchanged. |
| `SaveCommands.UpdateKeepsLogsConsistent` | gaepagseguro/save_commands.py:89-102 | After an update, every payment's last log still carries its current status. |
| `SaveCommands.OwnerArcWritten` | gaepagseguro/save_commands.py:105-109 | Writing SaveToPayment adds one owner arc and nothing else. The owner's payments gain the payment at the end, and every other owner's are unchanged. |
| `SaveCommands.ArcsWritten` | gaepagseguro/save_commands.py:112-128 | Writing the arcs step adds one log, one log arc, one arc per item and the owner arc, and nothing else. |
| `ConnectionCommands.ParamNameInjective` | gaepagseguro/connection_commands.py:78-105 | No two request keys have the same name, so the parameters never overwrite one another. |
| `ConnectionCommands.ValuesReadBack` | gaepagseguro/connection_commands.py:89-93 | An item's amount and quantity texts read back as its price and quantity. Its id text is its reference id, or "9999" when it has none. |
| `ConnectionCommands.BaseEntries` | gaepagseguro/connection_commands.py:78-86 | The base block holds exactly the eight fixed keys, each with its value, including the reference as text and shipping type "3". |
| `ConnectionCommands.ItemEntries` | gaepagseguro/connection_commands.py:89-93 | Item number i contributes exactly its four keys numbered i. |
| `ConnectionCommands.ItemsEntries` | gaepagseguro/connection_commands.py:88-93 | For n items the item keys run over 1..n, and key number i describes the i-th item of the list. |
| `ConnectionCommands.AppendItemEntries` | gaepagseguro/connection_commands.py:88-93 | One more loop turn extends the item keys to the next index with the next item's values. |
| `ConnectionCommands.ShippingEntries` | gaepagseguro/connection_commands.py:96-105 | The address block holds exactly the eight shipping keys, the country always "BRA". |
| `ConnectionCommands.RequestGroups` | gaepagseguro/connection_commands.py:76-106 | The request holds the base block, the item block and, given an address, the address block, each with its values. |
| `ConnectionCommands.RequestKeys` | gaepagseguro/connection_commands.py:76-106 | The request's keys are the base keys, the item keys 1..n, and the shipping keys exactly when an address is given. |
| `ConnectionCommands.RequestBaseValue` | gaepagseguro/connection_commands.py:78-86 | Every base key is present with its value. |
| `ConnectionCommands.RequestItemValue` | gaepagseguro/connection_commands.py:88-93 | Item key number i + 1 carries the i-th item's value. |
| `ConnectionCommands.RequestShippingValue` | gaepagseguro/connection_commands.py:95-105 | Given an address, every shipping key carries its address value. |
| `ConnectionCommands.MakeParams` | gaepagseguro/connection_commands.py:76-106 | The loop that fills the dictionary builds exactly that request. |
| `ConnectionCommands.Contact` | gaepagseguro/connection_commands.py:42-55 | Contact succeeds exactly when the answer is 200, is not "Unauthorized", parses to a root other than `errors`, and carries a code. The payment then becomes SENT_TO_PAGSEGURO with the answer's code as checkout code, and its `code` field is untouched. A missing or rejected answer gives one `pagseguro` error. |
| `ConnectionCommands.AcceptedNotRejected` | gaepagseguro/connection_commands.py:44-53 | An answer is never both accepted and rejected, and one that is neither has no parsed root, so the XML parser raises. |
| `ConnectionCommands.SentPayment` | gaepagseguro/connection_commands.py:42-52 | The payment GeneratePayment leaves is SENT_TO_PAGSEGURO and priced at the sum of its items, with no code. |
| `ConnectionCommands.StagedWritten` | gaepagseguro/connection_commands.py:58-68 | Writing the chain's staged entities equals the data and arcs steps followed by the status update. |
| `ConnectionCommands.PaymentBatchWritten` | gaepagseguro/connection_commands.py:58-68 | Everything the chain writes yields `AfterGenerate`. |
| `ConnectionCommands.GenerateHistory` | gaepagseguro/connection_commands.py:58-68 | A generated payment's history is [CREATED, SENT_TO_PAGSEGURO], and every other history is unchanged. |
| `ConnectionCommands.GenerateKeepsConsistent` | gaepagseguro/connection_commands.py:58-68 | After generation every payment's last log carries its status. |
| `ConnectionCommands.GenerateKeepsValid` | gaepagseguro/connection_commands.py:58-68 | After generation every arc leads to stored nodes and every key lies below the counter. |
| `ConnectionCommands.GenerateItems` | gaepagseguro/connection_commands.py:58-68 | The generated payment's items are the validated items in order, and other payments keep theirs. |
| `ConnectionCommands.GenerateOwners` | gaepagseguro/connection_commands.py:58-68 | The owner's payments gain the new payment at the end, and no other owner's payments change. |
| `ConnectionCommands.ContactOutcome` | gaepagseguro/connection_commands.py:71-73 | The chain succeeds exactly when contact does, returning the payment and its checkout code, and otherwise propagates contact's errors or exception. |
| `ConnectionCommands.StagedBatchWritten` | gaepagseguro/connection_commands.py:63-66 | Writing the data and arc steps gives `Staged`: the CREATED payment, its items, one CREATED log with its arc, the item arcs and the owner arc. |
| `ConnectionCommands.StagedHistory` | gaepagseguro/connection_commands.py:63-66 | After those steps the new payment is CREATED with history [CREATED], and every other history is unchanged. |
| `ConnectionCommands.StagedKeepsConsistent` | gaepagseguro/connection_commands.py:63-66 | Those steps keep every payment's last log equal to its status. |
| `ConnectionCommands.StagedKeepsValid` | gaepagseguro/connection_commands.py:63-66 | Those steps keep every arc resolved and every key below the reserved ids. |
| `ConnectionCommands.CommitStaged` | gaepagseguro/connection_commands.py:63-66 | The data and arc steps write `Staged` under 3 + n fresh ids. They keep validity, and keep log consistency when it held before. |
| `ConnectionCommands.CommitSent` | gaepagseguro/connection_commands.py:68 | After an accepted answer, the last step turns `Staged` into `AfterGenerate` and keeps validity and consistency. |
| `ConnectionCommands.EncodeRequest` | gaepagseguro/connection_commands.py:37 | Encoding succeeds exactly when every request value is ISO-8859-1, and returns the request unchanged. Otherwise it raises UnicodeEncodeError. |
| `ConnectionCommands.RequestEncodes` | gaepagseguro/connection_commands.py:37 | When the credentials, client, redirect URL, item descriptions and address are ISO-8859-1, the whole request encodes, since the ids, amounts and quantities are digits. |
| `ConnectionCommands.ClientNameBlocksEncoding` | gaepagseguro/connection_commands.py:37 | A client name outside ISO-8859-1 makes the encoding raise. |
| `ConnectionCommands.DescriptionBlocksEncoding` | gaepagseguro/connection_commands.py:37 | An item description outside ISO-8859-1 makes the encoding raise. |
| `ConnectionCommands.GeneratePayment` | gaepagseguro/connection_commands.py:26-73 | Failed validation returns its errors and writes nothing. Otherwise the data and arc steps write `Staged` under 3 + n fresh ids, and the request is built. When a request value is not ISO-8859-1, the command raises UnicodeEncodeError without contacting the gateway. Otherwise the outcome is contact's. Only an accepted answer moves the tables on to `AfterGenerate`. Any other outcome leaves them at `Staged`. |
| `UpdateCommands.GatewayStatus` | gaepagseguro/update_commands.py:149-157 | No gateway code maps to CREATED. |
| `UpdateCommands.GatewayCode` | gaepagseguro/update_commands.py:149-157 | Every status except CREATED has a gateway code. |
| `UpdateCommands.GatewayTableInverse` | gaepagseguro/update_commands.py:149-157 | The code table and its reverse agree in both directions, so the table is one-to-one. |
| `UpdateCommands.GatewayCodesKnown` | gaepagseguro/update_commands.py:149-157 | A code is known exactly when it is one digit from 1 to 9. |
| `UpdateCommands.FetchNotificationDetail` | gaepagseguro/update_commands.py:19-51 | With no access data it raises. An empty answer gives a `pagseguro` error. An unparsable or incomplete answer, or an unknown status, raises. A missing reference gives `no_reference` and keeps the xml. Otherwise it returns the reference, the code, the mapped status and the net amount. |
| `UpdateCommands.UpdatedPayment` | gaepagseguro/update_commands.py:74-80 | The status is always replaced and the total kept. `code` and `net_amount` are filled only when unset. An unset net amount that does not parse raises. |
| `UpdateCommands.UpdateReadsNetAmount` | gaepagseguro/update_commands.py:78 | A net amount sent as decimal text is stored as that amount. |
| `UpdateCommands.UpdateFillsOnce` | gaepagseguro/update_commands.py:78-80 | Once a notification has filled the code and net amount, a later one keeps them and only replaces the status. |
| `UpdateCommands.ReferencedPayment` | gaepagseguro/update_commands.py:68-69 | A reference finds a payment exactly when it is the text of a stored key. |
| `UpdateCommands.ReferenceOfKey` | gaepagseguro/update_commands.py:68-69 | The reference sent at checkout finds its own payment. |
| `UpdateCommands.UpdateOutcome` | gaepagseguro/update_commands.py:74-85 | A reference that finds no payment gives the `payment` error. Otherwise the update succeeds on that payment unless its net amount cannot be read. |
| `UpdateCommands.UpdatePayment` | gaepagseguro/update_commands.py:61-85 | The command's outcome is `UpdateOutcome`. On success the tables move to `AfterUpdate` with one fresh log, and otherwise they are unchanged. It runs on any valid store, a payment without logs included. Validity is kept, and so is log consistency whenever it held before. |
| `UpdateCommands.PaymentNotification` | gaepagseguro/update_commands.py:88-99 | A fetch that fails propagates, keeps its xml and changes nothing. Otherwise the notified payment is updated. It runs on any valid store, and keeps log consistency whenever it held before. |
| `UpdateCommands.NotifiedHistory` | gaepagseguro/update_commands.py:81-83 | After a run of notifications of one payment, its history is extended by their statuses in order and every other history is unchanged. |
| `UpdateCommands.NotifiedOwnHistory` | gaepagseguro/update_commands.py:81-83 | The notified payment's history gains exactly the run's statuses in order. |
| `UpdateCommands.NotifiedOtherHistory` | gaepagseguro/update_commands.py:81-83 | Other payments' histories are unchanged by the run. |
| `UpdateCommands.NotifiedPaymentHistory` | gaepagseguro/update_commands.py:81-83 | On valid tables, the log history is the ordered sequence of notified statuses. |
| `ExternalPayments.ExternalItem` | gaepagseguro/update_commands.py:127-130 | An item element yields an item exactly when its amount and quantity parse and the item meets the model's bounds. Otherwise it raises, from the amount first and then the quantity. |
| `ExternalPayments.ExternalItemReadsBack` | gaepagseguro/update_commands.py:127-130 | A valid item without reference, written as an element, reads back as itself. |
| `ExternalPayments.ItemElements` | gaepagseguro/update_commands.py:132-134 | A single item element is treated as a list of one. |
| `ExternalPayments.ExternalItems` | gaepagseguro/update_commands.py:132-136 | Every element yields its item, in order, or the first failing element's exception is raised. |
| `ExternalPayments.ReadExternal` | gaepagseguro/update_commands.py:119-136 | The document yields a payment exactly when code, status, both amounts and items are present and readable and the status is known. A missing code, status or amount raises KeyError. Unreadable amounts raise BadValueError. Readable amounts without `items` raise KeyError. A failing item raises its own exception, and an unknown status code raises BadValueError. |
| `ExternalPayments.ReadExternalRoundTrip` | gaepagseguro/update_commands.py:119-136 | A document written from a transaction reads back as that transaction. |
| `ExternalPayments.ExistingStatus` | gaepagseguro/update_commands.py:115-116 | A known payment takes the mapped status, which is never CREATED. A missing or unknown status raises. |
| `ExternalPayments.PlanOwner` | gaepagseguro/update_commands.py:140-145 | There is an owner exactly when a sender is given: the existing user, or else the new one. |
| `ExternalPayments.RecordedPayment` | gaepagseguro/update_commands.py:120-123 | The new payment has the transaction's code and status, and total and net equal to the gross and net amounts. |
| `ExternalPayments.ItemsWritten` | gaepagseguro/update_commands.py:135-136 | Writing the items adds one item node and one arc per item element, in order. |
| `ExternalPayments.ExternalKeepsValid` | gaepagseguro/update_commands.py:119-146 | Recording an external payment under fresh ids keeps the tables valid. |
| `ExternalPayments.ExternalHistory` | gaepagseguro/update_commands.py:137-138 | The new payment's history is its one status, and every other history is unchanged. |
| `ExternalPayments.ExternalKeepsConsistent` | gaepagseguro/update_commands.py:119-146 | After recording, every payment's last log carries its status. |
| `ExternalPayments.ExternalItemsLinked` | gaepagseguro/update_commands.py:132-136 | The new payment's items are the document's items in order, and other payments keep theirs. |
| `ExternalPayments.ExternalOwners` | gaepagseguro/update_commands.py:140-145 | Only the planned owner gains the new payment, at the end of its payments. |
| `ExternalPayments.ProcessExternalPayment` | gaepagseguro/update_commands.py:106-146 | An unparsable document or a missing code raises with nothing written. For a known code, the stored payment takes the new status and one more log. For an unknown code, a new payment is recorded with its log, items and owner (existing user by email or a new one), and its key is returned. Every raise leaves the store unchanged. It runs on any valid store, keeps validity, and keeps log consistency whenever it held before. |
| `ExternalPayments.CommitUpdate` | gaepagseguro/update_commands.py:115-118 | Updating the known payment writes `AfterUpdate` under one fresh id. It keeps validity, and keeps log consistency whenever it held before. |
| `ExternalPayments.CommitExternal` | gaepagseguro/update_commands.py:119-146 | Recording the new payment writes `AfterExternal` under 3 + n fresh ids. It keeps validity, and keeps log consistency whenever it held before. |
| `ExternalPayments.CommitLog` | gaepagseguro/update_commands.py:137-138 | The log write adds one log and its arc, and nothing else. |
| `ExternalPayments.CommitItems` | gaepagseguro/update_commands.py:127-136 | The item writes add the items and one arc to each, and nothing else. |
| `ExternalPayments.PutPlannedUser` | gaepagseguro/update_commands.py:141-144 | A user is stored only when the plan creates one. |
| `ExternalPayments.PutOwnerArc` | gaepagseguro/update_commands.py:145 | An owner arc is added only when there is a sender. |
| `PagSegFacade.LabelStatus` | gaepagseguro/pagseguro_facade.py:19-28 | A label read back names a status with that label. |
| `PagSegFacade.LabelRoundTrip` | gaepagseguro/pagseguro_facade.py:19-28 | Reading a status's label back gives the status. |
| `PagSegFacade.LabelsDistinct` | gaepagseguro/pagseguro_facade.py:19-28 | No two statuses share a label. |
| `PagSegFacade.StatusLabel` | gaepagseguro/pagseguro_facade.py:31-32 | A label exists exactly for the ten status names, and it names the status it was looked up for. |
| `PagSegFacade.EveryStatusLabelled` | gaepagseguro/pagseguro_facade.py:19-32 | Every status of STATUSES has its label. |
| `PagSegFacade.PagseguroUrl` | gaepagseguro/pagseguro_facade.py:50-54 | The URL is the fixed checkout prefix followed by the code. |
| `PagSegFacade.UrlRoundTrip` | gaepagseguro/pagseguro_facade.py:50-54 | The code read from a checkout URL is the code it was built from. |
| `PagSegFacade.UrlFromCode` | gaepagseguro/pagseguro_facade.py:50-54 | Every URL that carries a code is that code's checkout URL. |
| `PagSegFacade.SearchAllPayments` | gaepagseguro/pagseguro_facade.py:128-131 | The status-filtered search is chosen exactly when a non-empty status is given, and the paging arguments pass through unchanged. |
| `PagSegFacade.SearchAllPaymentsFinds` | gaepagseguro/pagseguro_facade.py:115-131 | With a status, the search selects exactly the payments holding it, and without one every payment. |
| `PagSegFacade.UnknownStatusFindsNothing` | gaepagseguro/search_commands.py:41-47 | A non-empty name outside STATUSES selects no payment. |
| `PagSegFacade.DefaultComplementAccepted` | gaepagseguro/pagseguro_facade.py:87-92 | An address built without a complement gets "Sem Complemento", passes the complement rule and sends that text. |
| `PagSegFacade.DefaultReferencePlaceholder` | gaepagseguro/pagseguro_facade.py:95-105 | An item built without a reference has none and is sent with id "9999". |
| `HomeMessages.ToMsg` | project_template/backend/src/web/pagseguro/home.py:8-16 | The message is always PROCESSING, OK or PROBLEM. It is PROCESSING exactly for CREATED, SENT_TO_PAGSEGURO and ANALYSIS, and OK exactly for ACCEPTED and AVAILABLE. |
| `HomeMessages.ProblemStatuses` | project_template/backend/src/web/pagseguro/home.py:16 | DISPUTE, RETURNED, CANCELLED, CHARGEBACK and CHARGEBACK_DEBT, and only they, give PROBLEM. |

## Left out

- The command framework (gaebusiness) is reduced to its observable contract. Each step returns a result, adds to an error map or raises. Each step of a sequential chain writes its staged entities once it completes. The chain stops at the first step that fails, and the writes of the steps before it stay. Parallel commands are run in sequence.
- The graph library's arc creation and node searches are reduced to the arc lists in `Store` and the queries `History`, `ItemsOf` and `PaymentsOf`.
- XML parsing (xmltodict, ElementTree) and HTTP (UrlFetchCommand) are left out. They are the parameters `parse`, `fetch` and `gateway`, and a parsed document is a datatype whose missing children are none.
- The ISO-8859-1 encoding of request values is modelled only as the check that every character is at most U+00FF (`EncodeRequest`). The bytes it produces are not modelled, and neither is the decoding of the checkout code.
- The router URL of the notification query and memcache are left out. Neither changes what the model decides.
- The e-mail and CEP checks of the forms library are the parameters of `FieldChecks`. They are constrained only by the examples the tests give, and their regular expressions are not modelled.
- The item form is an input (`ItemCheck`: its errors and the item it builds). The forms library's validation of price and quantity text is not modelled.
- `PaymentForm.fill_with_model`, `payment_form` and the pass-through facade constructors (`search_access_data_cmd`, `search_payments`, `search_items`, `search_logs`, `payment_notification`, `generate_payment`, `procces_external_payment_cmd`) are left out, because they only wrap the commands modelled above.
- Searches are not modelled beyond the query they stand for: ordering by the `update` timestamp, paging, cursors, caching and relation loading are left out.
- `FindOrCreateUserCmd` and the users API are left out. User lookup by e-mail is the `:|` choice of an existing user in `ProcessExternalPayment`.
- The older `src/gaepagseguro` generation and the example application's handlers other than `_to_msg` are left out.
- Floating point is not involved: amounts are integer cents. Decimal text is read only in the `FormatCents` shape (optional minus, digits, a point and two digits), so other Decimal spellings are not modelled.
- ExternalPayments.ProcessExternalPayment: the source puts the new payment, and possibly the new user, before a later failure (a bad item or an unknown status) can stop the command. The model raises with the store unchanged instead. An unknown status on a known payment is stored in the source as None and fails when saved; the model raises before writing. The exception names (KeyError, BadValueError, InvalidOperation, ValueError, ExpatError) are indicative.
- ExternalPayments.CommitExternal: the source writes the log, the items and their arcs, and the owner arc as one parallel batch. The model writes them one after the other, which reaches the same final tables but not the source's interleaving.
- ValidationCommands.ValidatePagseguroData: an order of no item fails with the `item_number` error, where the code as written accepts it (see "## Findings"). Every order with at least one item gets the code's own outcome.
- ConnectionCommands.GeneratePayment: it validates with the corrected rule, so an order of no item fails and sends nothing. The code as written would contact the gateway with no items.
- UpdateCommands.UpdateOutcome: the `payment` error message carries the reference text where the source prints the datastore key.
- ConnectionCommands.Contact: an accepted answer whose `code` element is missing raises (`findtext` returns None), in line with the source but with an indicative exception name.

## Findings

| source | as written | input that shows it | evidently intended | confidence | as-written member | corrected member |
|---|---|---|---|---|---|---|
| gaepagseguro/validation_commands.py:118-119 | `item_number` is added only on the failure path, so with no item commands and everything else valid, no child fails and validation succeeds with an empty item list | client "Renzo Nuccitelli" / "a@foo.com", a valid address, stored access data, no items | a payment needs at least one item ("Should have one item at least") | not executed | `ValidationCommands.ZeroItemsCounterexample` | `ValidationCommands.Validate` |
