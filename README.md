# Bingwa Sokoni purchase bot — verified model

`telegram_bot.py` is a Telegram bot for buying data, SMS and
minutes bundles and paying for them through an M-Pesa STK push on the PayHero
gateway. This project models its logic in Dafny. The model has three parts.

- **Catalog** (`catalog.dfy`): the three package tables, each an ordered
  list of key → (label, price) entries, since a Python dict literal keeps
  its insertion order. It also holds dictionary subscription, the list
  comprehension that turns a table into menu buttons, the cancel button and
  the deal-type buttons.
  - Proved about the catalog: every price is positive, and every label
    shows that package's price after "Ksh ", and no other amount follows a
    "Ksh " in it.
  - Keys carry their table's prefix (`data_`, `sms_`, `min_`) and are
    distinct across all three tables.
  - `cancel_purchase` is no package key.
  - Pressing a menu button selects exactly the package that the button shows.
- **Payment** (`payment.dfy`): the STK push payload built from (phone,
  amount), with its fixed channel, provider, reference and callback URL.
  It also holds the if/elif chain of `initiate_stk_push`, which sorts the
  gateway's answer into exactly one user-facing outcome, and the reply text
  for each outcome.
- **Conversation** (`conversation.dfy`): the conversation states and the six
  handlers.
  - `start`, `show_menu` and `cancel_purchase` touch no per-user data, so
    they are functions from the update to a `Step`. A `Step` is either the
    next state plus the replies sent, or the Python exception raised.
  - `choose_type`, `choose_package` and `get_phone_number` update
    `context.user_data` in place. They are methods of the class
    `UserData`, whose fields are the three keys `deal_type`, `package` and
    `phone_number`.
  - An update is either a button press (callback data) or a text message.
    A handler given the other kind raises `AttributeError`, as the Python
    does when `update.callback_query` or `update.message` is None.
  - `Purchase` carries one user through a whole purchase. The payment
    request goes out exactly when the key is in the chosen deal type's
    table, and it charges that package's catalog price.

Errors are modelled as results, not excluded by preconditions:
- an unknown deal type leaves `keyboard` unbound (`UnboundLocalError`);
- a missing `deal_type` or `package` entry, or a key not in the table, raises `KeyError`;
- a failed POST or a body that is not JSON gives the generic error reply.

The gateway exchange is a parameter of `GetPhoneNumber`, so the network
stays outside the model: the model takes the status code and the parsed
body as given.

## Model

| member | source | states |
|---|---|---|
| Catalog.KeyPrefix | telegram_bot.py:37-61 | a deal type has a key prefix exactly when it is `data`, `sms` or `minutes`, and these get `data_`, `sms_` and `min_` respectively |
| Catalog.TableFor | telegram_bot.py:93-98 | the if/elif chain selects a table exactly for `data`, `sms`, `minutes`, and for each the matching table |
| Catalog.Lookup | telegram_bot.py:115-120 | `table[key]` yields a package exactly when some entry has that key, and then the table holds that key with that package |
| Catalog.PackageButtons | telegram_bot.py:94-98 | one button per entry, in table order, button i labelled with entry i's label and keyed by entry i's key |
| Catalog.Data6WellFormed | telegram_bot.py:38 | `data_6` has a positive price, its label shows that price after "Ksh " and no other amount follows a "Ksh " in it, and its key starts `data_` |
| Catalog.Data3WellFormed | telegram_bot.py:39 | the same for `data_3` |
| Catalog.Data1WellFormed | telegram_bot.py:40 | the same for `data_1` |
| Catalog.Data4WellFormed | telegram_bot.py:41 | the same for `data_4` |
| Catalog.Data2WellFormed | telegram_bot.py:42 | the same for `data_2` |
| Catalog.Data5WellFormed | telegram_bot.py:43 | the same for `data_5` |
| Catalog.Data7WellFormed | telegram_bot.py:44 | the same for `data_7` |
| Catalog.Data8WellFormed | telegram_bot.py:45 | the same for `data_8` |
| Catalog.Sms3WellFormed | telegram_bot.py:50 | `sms_3` has a positive price, its label shows that price after "Ksh " and no other amount follows a "Ksh " in it, and its key starts `sms_` |
| Catalog.Sms2WellFormed | telegram_bot.py:51 | the same for `sms_2` |
| Catalog.Sms1WellFormed | telegram_bot.py:52 | the same for `sms_1` |
| Catalog.Min1WellFormed | telegram_bot.py:57 | `min_1` has a positive price, its label shows that price after "Ksh " and no other amount follows a "Ksh " in it, and its key starts `min_` |
| Catalog.Min2WellFormed | telegram_bot.py:58 | the same for `min_2` |
| Catalog.Min3WellFormed | telegram_bot.py:59 | the same for `min_3` |
| Catalog.Min4WellFormed | telegram_bot.py:60 | the same for `min_4` |
| Catalog.LabelShowsPrice | telegram_bot.py:37-61 | a label whose only 'K' begins a "Ksh " followed by a numeral for the price shows that price there, and no other amount follows a "Ksh " in it |
| Catalog.DataWellFormed | telegram_bot.py:37-46 | every data package has a positive price shown in its label and a `data_` key |
| Catalog.SmsWellFormed | telegram_bot.py:49-53 | every SMS package has a positive price shown in its label and an `sms_` key |
| Catalog.MinutesWellFormed | telegram_bot.py:56-61 | every minutes package has a positive price shown in its label and a `min_` key |
| Catalog.DataKeysDistinct | telegram_bot.py:37-46 | no two data entries share a key |
| Catalog.SmsKeysDistinct | telegram_bot.py:49-53 | no two SMS entries share a key |
| Catalog.MinutesKeysDistinct | telegram_bot.py:56-61 | no two minutes entries share a key |
| Catalog.KeysDistinctAppend | telegram_bot.py:37-61 | two key-distinct tables stay key-distinct together when their keys start with different characters |
| Catalog.CatalogKeysDistinct | telegram_bot.py:37-61 | no two packages anywhere in the catalog share a key |
| Catalog.CancelKeyNotInCatalog | telegram_bot.py:37-61 | `cancel_purchase` (the cancel button's data) is not a key of any table, so looking it up in any table finds nothing |
| Catalog.LookupFindsEntry | telegram_bot.py:115-120 | in a key-distinct table, looking up an entry's key yields exactly that entry's package |
| Catalog.LookupInCatalog | telegram_bot.py:112-120 | a package found through a known deal type is a catalog package with a positive price that its label shows |
| Catalog.MenuSelectsShownPackage | telegram_bot.py:94-98 | looking up the key of the i-th menu button yields exactly the package at that position |
| Catalog.CatalogPricesPositive | telegram_bot.py:37-61 | every catalog package's price is positive and shown in its label |
| Catalog.DealTypeButtonsMatchTables | telegram_bot.py:72-76 | the /menu buttons offer exactly the deal types for which a table exists |
| Payment.StkPushPayload | telegram_bot.py:140-147 | the payload carries the given amount and phone, with channel 852, provider `m-pesa`, reference `INV-009` and the fixed callback URL |
| Payment.PayloadCharacterised | telegram_bot.py:140-147 | a payload is the request for (phone, amount) exactly when it carries those and the fixed fields |
| Payment.Classify | telegram_bot.py:149-176 | exactly one outcome, each as an if-and-only-if. A failed POST or a body that is not JSON gives the error reply, whatever the code. Any other code gives "failed to initiate". For 200/201: a non-object body gives the error reply; a falsy `success` gives "payment failed" with the gateway's message; `QUEUED` gives the PIN prompt; `SUCCESS` gives "payment successful"; any other status gives "payment status" with that status |
| Payment.Rendered | telegram_bot.py:169-171 | a field the gateway sent renders as its string; an absent one renders as `None`, as an f-string renders Python's None |
| Payment.Message | telegram_bot.py:164-176 | every reply text starts with the ten-character opening of its outcome's kind; a status reply is "Payment status: ", the rendered status, then ". Please try again."; a failure reply is the same with "Payment failed: " and the rendered message |
| Payment.OpeningIdentifiesKind | telegram_bot.py:164-176 | two outcomes share an opening exactly when they are of the same kind |
| Payment.MessageTellsKindsApart | telegram_bot.py:164-176 | outcomes of different kinds never produce the same reply text |
| Conversation.WelcomeText | telegram_bot.py:68 | the greeting is the fixed opening, then the first name as given, then the fixed closing |
| Conversation.SelectedText | telegram_bot.py:122 | the prompt is "You selected: ", then the chosen package's label, then the request for a phone number |
| Conversation.SummaryText | telegram_bot.py:130 | the summary is "Package: ", the package label, a newline and "Phone Number: ", the phone number exactly as typed, then the fixed closing |
| Conversation.WelcomeNamesUser | telegram_bot.py:68 | two greetings are equal only for the same first name |
| Conversation.SelectedNamesPackage | telegram_bot.py:122 | two package prompts are equal only for the same label |
| Conversation.SummaryNamesPhone | telegram_bot.py:130 | for one package, two summaries are equal only for the same phone number |
| Conversation.Start | telegram_bot.py:66-69 | a message gets the welcome with the first name and ends the conversation; a button press raises |
| Conversation.ShowMenu | telegram_bot.py:71-79 | a message gets the three deal-type buttons and moves to CHOOSING_TYPE; every button offered has a table |
| Conversation.CancelPurchase | telegram_bot.py:81-84 | only a button press cancels (END with the cancel notice); a message, such as /cancel, raises AttributeError |
| Conversation.CancelPurchaseCorrected | telegram_bot.py:81-84 | every update cancels with the same notice and END, and it agrees with the handler as written on button presses |
| Conversation.CancelCommandRaises | telegram_bot.py:188 | /cancel raises in the handler as written and cancels in the corrected one |
| Conversation.UserData.ChooseType | telegram_bot.py:86-106 | stores the pressed deal type. For a known type, it moves to CHOOSING_PACKAGE with one button per package in table order plus the cancel button last (|table|+1 buttons). An unknown type raises UnboundLocalError. A message raises AttributeError and stores nothing. The package and phone are untouched |
| Conversation.UserData.ChoosePackage | telegram_bot.py:108-123 | a missing deal type raises KeyError. For a known type, it stores exactly `table[key]` and moves to GETTING_PHONE, or raises KeyError(key) and stores nothing. For an unknown type nothing is stored and the reply names the package already held, or KeyError. It keeps the record's packages in the catalog |
| Conversation.UserData.ChoosePackageCorrected | telegram_bot.py:108-123 | the cancel button's `cancel_purchase` ends the conversation with the cancel notice and changes nothing; every other update gets what `choose_package` gives it: AttributeError for a message, KeyError('deal_type') with none stored, `table[key]` or KeyError(key) for a known deal type, and the old package or KeyError('package') for an unknown one |
| Conversation.UserData.GetPhoneNumber | telegram_bot.py:125-135 | stores the message text unchanged as the phone. With a package stored, it sends the payload for that phone and that package's price and ends with the summary and the classified payment reply. Without one it raises KeyError. The catalog invariant makes the amount charged positive |
| Conversation.CancelButtonWhileChoosingPackage | telegram_bot.py:101-120 | for a known deal type, the menu shown in CHOOSING_PACKAGE carries the cancel button, and pressing it in `choose_package` raises KeyError('cancel_purchase') |
| Conversation.CancelButtonWhileChoosingPackageCorrected | telegram_bot.py:101-120 | with the corrected handler, the same press ends the conversation with the cancel notice |
| Conversation.Purchase | telegram_bot.py:86-135 | from an empty record, a purchase passes CHOOSING_PACKAGE, GETTING_PHONE, END and charges the catalog price exactly when the key is in the chosen deal type's table. Otherwise it stops with UnboundLocalError('keyboard') for an unknown deal type, or with KeyError(key) after CHOOSING_PACKAGE for a key not in the table, and sends no request |

## Left out

- ConversationHandler dispatch (telegram_bot.py:181-189) is not modelled. It covers which handler python-telegram-bot picks for an update, the precedence of state handlers over fallbacks, and how END resets the conversation. That logic lives in the library. The model gives each handler's outcome for either kind of update. The second finding takes from the library only that a state's handlers are tried before the fallbacks.
- The empty per-user record is created by the library; `UserData`'s constructor stands for it.
- The conversation's behaviour after a handler raises is not modelled: the state the library keeps and the error log are left out.
- Telegram I/O is not modelled: `reply_text`, `answer`, keyboard rendering and `run_polling`. Replies are values in the `Step` result, and the first name is a parameter of `Start`.
- The HTTP POST to the gateway's payments URL (telegram_bot.py:138, 150) and JSON decoding are not modelled. The exchange is a parameter (`Payment.Exchange`), and the response JSON is abstracted to `Payment.Body`.
- Payment.Body models `success` only by its truthiness and `status` and `message` only as absent or a string. JSON numbers, lists and nested objects in those fields are not modelled.
- Payment.MessageTellsKindsApart covers kinds only: an absent `status` and the status string "None" render the same reply, as an f-string renders None.
- Payment.Classify does not model an exception raised by `reply_text` inside the try block, which would also lead to the generic error reply.
- Credentials are not modelled: environment loading, the `EnvironmentError` for missing variables and the Basic auth header (telegram_bot.py:12, 22-34). They are configuration and a foreign call.
- Logging, `asyncio`, `nest_asyncio` and the async structure are not modelled; they do not affect the logic.
- The package labels are written as three concatenated literals around "Ksh N". The result is the same string, and the pieces keep the proofs about each label small. The gateway reply texts are likewise written as a ten-character opening followed by the rest.

## Findings

| source | as written | input that shows it | evidently intended | confidence | as-written member | corrected member |
|---|---|---|---|---|---|---|
| telegram_bot.py:82, telegram_bot.py:188 | `cancel_purchase` is registered for the /cancel command but begins with `update.callback_query.answer()`, and a command update has no callback query | the text message `/cancel` inside a conversation raises AttributeError instead of cancelling | /cancel and the cancel button both end the conversation with the cancel notice | high, from reading; not executed | Conversation.CancelPurchase (shown by Conversation.CancelCommandRaises) | Conversation.CancelPurchaseCorrected |
| telegram_bot.py:101, telegram_bot.py:185 | the deals menu shown in CHOOSING_PACKAGE ends with a "Cancel Purchase" button, but that state's `CallbackQueryHandler(choose_package)` has no pattern, so it takes the press before the `cancel_purchase` fallback is tried | pressing "Cancel Purchase" on the deals menu raises KeyError('cancel_purchase') in `choose_package`, and the conversation stays in CHOOSING_PACKAGE | the cancel button on the deals menu ends the conversation with the cancel notice | medium: relies on python-telegram-bot trying a state's handlers before the fallbacks; not executed | Conversation.CancelButtonWhileChoosingPackage | Conversation.UserData.ChoosePackageCorrected (shown by Conversation.CancelButtonWhileChoosingPackageCorrected) |
