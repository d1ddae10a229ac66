# WB sales bot: registration dialog, shop registry and sales report

A model of `main.py`, a Telegram bot (aiogram) that lets a Wildberries seller
register shops by name and API key, list them, and request a sales report for a
shop over a period.  The model covers the sequential logic under the chat and
HTTP plumbing:

- **Dialog** (`dialog.dfy`): the `Register` FSM of one user as a `Session`
  class: `/addshop` moves to awaiting the name, the name reply to awaiting the
  key, the key reply always back to idle, appending `{name, api_key}` to the
  registry when the validator accepts the key.
- **Registry** (`shops.dfy`): the `shops` list of the config document as a
  `ShopRegistry` class over `seq<Shop>`: append, Python's `list.remove`,
  confirm_delete's search-and-remove, and list_shops' name-collecting loop;
  the config document with its load and save.
- **Dispatch** (`router.dfy`, `bot.dfy`): aiogram's first-match choice among
  the handlers in registration order, and one message handled end to end.
- **Report buttons** (`callback.dfy`): callback data `report_<i>`, the suffix
  after the 7-character prefix, and the shop it selects.
- **Periods** (`period.dfy`): lower-casing and the two fixed aliases.
- **Aggregation** (`sales.dfy`, `report.dfy`): the seven sums and the average
  price, and the whole path from button press and period reply to a report.

The validator's verdict is the boolean `keyValid`; the report endpoint is the
function parameter `fetch` from API key and date range to the records it
returns.  Money is held in integer kopecks and the average is an exact `real`.

The model follows main.py as it stands: the aliases resolve to the fixed dates
2023-01-07 and 2023-01-06 (main.py:193-195); adding a shop whose name is
already registered is not refused (main.py:109-112); the average fails only
when the units add up to zero; the validator's answer is a plain yes/no, with
network errors folded into "invalid" (main.py:42-51); and the delete flow has
no state of its own: delete_shop sets none, and confirm_delete listens on
`Register.name` (main.py:120-128).

## Model

| member | source | states |
|---|---|---|
| `Dialog.Session.constructor` | main.py:20-22 | a user starts with no FSM state and no data |
| `Dialog.Session.AddShop` | main.py:84-87 | `/addshop` moves to awaiting the name, keeps the stored data and cannot touch the registry |
| `Dialog.Session.ReplyName` | main.py:90-94 | the name reply stores exactly the message text as `name` and moves to awaiting the key |
| `Dialog.Session.ReplyApiKey` | main.py:97-117 | the key reply always ends idle with no data; a valid key appends exactly `{name, key}` at the end of the registry, an invalid key leaves it unchanged |
| `Shops.ShopRegistry.Load` | main.py:29-34 | the in-memory registry holds what was loaded |
| `Shops.ShopRegistry.Add` | main.py:108-113 | the registry grows by the one shop at its end, earlier entries unchanged |
| `Shops.ShopRegistry.RemoveValue` | main.py:137 | `list.remove` deletes the first entry equal to its argument, keeping the others in order, and changes nothing when there is none |
| `Shops.ShopRegistry.ConfirmDelete` | main.py:128-143 | when the stored name equals the reply, the first shop named by the search key is removed and reported; otherwise not found and nothing changes; no stored name is the KeyError path |
| `Shops.ShopRegistry.Names` | main.py:148-158 | the loop collects the shop names in registry order; the list is empty exactly when the registry is |
| `Shops.RegisterNameState` | main.py:134 | `Register.name` as the only string it compares equal to, "Register:name" (group and state name joined by ':') |
| `Shops.FirstNamed` | main.py:134 | the index of the first shop whose name is the key; none exactly when no shop has that name |
| `Shops.IndexOf` | main.py:137 | the index of the first entry equal to a value; none exactly when the value is absent |
| `Shops.RemoveAt` | main.py:137 | removal of one entry keeps the entries before it, shifts those after it by one, and removes exactly that element from the multiset |
| `Shops.FoundShopIsFirstEqual` | main.py:134-137 | the shop found by name is the first entry equal to it, so `remove` deletes the entry the search found |
| `Shops.DeleteByStateNameFindsOnlyThatName` | main.py:134 | searching with the state `Register.name`, which equals the string "Register:name", finds a shop only if one has that very name, and then never the shop the user typed |
| `Shops.DeleteByStateNameMissesShop` | main.py:134 | with shop "A" and reply "A", the search as written finds nothing while a search for the reply finds shop 0 |
| `Shops.DeleteByTextFinds` | main.py:134 | searching with the reply text finds a shop exactly when some shop has that name |
| `Shops.LoadAsWritten` | main.py:29-34 | a missing config file loads as the empty JSON list, a present one as its document |
| `Shops.ShopsField` | main.py:109 | `config['shops']` exists only for an object document |
| `Shops.AbsentStoreHasNoShops` | main.py:33-34 | as written, after a missing config file `config['shops']` fails |
| `Shops.Save` | main.py:37-39 | a saved registry is an object document whose `shops` are the registry |
| `Shops.LoadShops` | main.py:29-34 | a missing store is the empty registry; a present one gives its `shops`, and a malformed one is reported |
| `Shops.LoadSaveRoundTrip` | main.py:29-39 | loading what was saved gives the same registry back |
| `Router.Word` | main.py:84 | the command word is the longest prefix free of spaces and `@` |
| `Router.WordOfPlain` | main.py:84 | a word without separators is its own command word |
| `Router.CommandName` | main.py:84 | a message carries a command exactly when it starts with `/` |
| `Router.Registered` | main.py:68-161 | the nine message handlers in decorator order: cmd_start, cmd_help, cmd_add_shop, register_name, register_api_key, delete_shop, confirm_delete, list_shops, cmd_report |
| `Router.IsCommand` | main.py:68-161 | aiogram's `Command(name)` filter: the text starts with '/' and its command word is the name |
| `Router.Accepts` | main.py:68-161 | each handler's filters: the five commands pass in every FSM state, register_name and confirm_delete exactly in `Register.name`, register_api_key exactly in `Register.api_key` |
| `Router.FirstAccepting` | main.py:68-161 | the first handler in a list whose filters pass, and none before it passes |
| `Router.Route` | main.py:68-161 | the chosen handler's filters pass and no handler registered before it accepts; no handler exactly when no registered handler accepts |
| `Router.ShadowedNeverChosen` | main.py:90-129 | a handler never runs if an earlier one accepts whenever it does |
| `Router.ConfirmDeleteShadowed` | main.py:128-129 | confirm_delete never handles a message: register_name, registered earlier for the same state, takes them all |
| `Router.NameEntryTakesMessage` | main.py:84-161 | while the name is awaited, a message becomes the name exactly when it is not /start, /help or /addshop |
| `Router.IdleIgnoresPlainText` | main.py:68-161 | outside a dialog, a message that carries none of the six commands (plain text or an unknown command) is handled by none of these handlers |
| `Router.AddShopCommandRoutes` | main.py:84-86 | `/addshop` reaches cmd_add_shop in every state |
| `Callback.NatToString` | main.py:171 | `str(i)` is a non-empty digit string without a leading zero |
| `Callback.ParseNat` | main.py:179 | a suffix parses exactly when it is a non-empty digit string |
| `Callback.ParseNatToString` | main.py:171 | parsing the decimal form of an index gives the index back |
| `Callback.Encode` | main.py:171 | button data passes the `report_` filter and its suffix is the index's decimal form |
| `Callback.IsReportCallback` | main.py:177 | process_report's filter: the callback data starts with `report_` |
| `Callback.Suffix` | main.py:179 | the data is the prefix followed by the suffix; short data gives the empty suffix |
| `Callback.EncodeInjective` | main.py:170-171 | distinct shops get distinct button data |
| `Callback.SelectAsWritten` | main.py:179-182 | as written, the shop found is the first whose name equals the suffix, and none is found exactly when no name equals it |
| `Callback.Select` | main.py:179-182 | the corrected lookup finds a shop exactly when the suffix is an index within the registry, and then it is the shop at that index |
| `Callback.SelectEncode` | main.py:171-181 | the corrected lookup of button `i` gives shop `i` |
| `Callback.SelectAsWrittenNeedsDigitName` | main.py:179-181 | as written, a button finds a shop only when some shop's name is all digits |
| `Callback.SelectAsWrittenMissesOnlyShop` | main.py:171-181 | with one shop "Ozon", button `report_0` finds nothing as written and finds Ozon as intended |
| `Callback.Buttons` | main.py:169-172 | one button per shop in order, captioned with its name, each selecting its own shop |
| `Callback.KeyboardAsWritten` | main.py:169-172 | as written no keyboard is produced: the aiogram 2 style construction raises under aiogram 3 |
| `Callback.KeyboardAsWrittenNeverSent` | main.py:169-172 | for every non-empty registry no keyboard reaches the user as written, while the intended keyboard has one button per shop and its first button selects the first shop |
| `Period.LowerChar` | main.py:191 | lower-casing leaves no capital and keeps other characters |
| `Period.UpperChar` | main.py:191 | the reverse mapping, leaving no lower-case letter and keeping other characters |
| `Period.LowerOfUpper` | main.py:191 | a capital lower-cases to a lower-case letter that upper-cases back to it |
| `Period.UpperOfLower` | main.py:191 | a lower-case letter upper-cases to a capital that lower-cases back to it |
| `Period.Lower` | main.py:191 | lower-casing keeps the length and lower-cases each character in place |
| `Period.LowerIdempotent` | main.py:191 | lower-casing twice is lower-casing once |
| `Period.Resolve` | main.py:191-198 | a range exists exactly for the two aliases in any case, and it is a single day |
| `Period.ResolveToday` | main.py:192-193 | 'сегодня' in any case gives 2023-01-07 to 2023-01-07 |
| `Period.ResolveYesterday` | main.py:194-195 | 'вчера' in any case gives 2023-01-06 to 2023-01-06 |
| `Period.ResolveIgnoresCase` | main.py:191-195 | the range depends only on the lower-cased reply |
| `Period.ResolveCapitalisedToday` | main.py:191-193 | 'Сегодня' is recognised |
| `Sales.Sum` | main.py:205-214 | Python's `sum` of one per-record figure over the records, in record order, 0 for none |
| `Sales.SumAppend` | main.py:205-214 | a sum over two batches of records is the sum of the two sums |
| `Sales.Summarize` | main.py:205-216 | a summary exists exactly when the units do not add up to zero; it names the shop, its seven totals are the record sums of quantity, quantity times price, commission, discount, acquiring, logistics and storage, and its average times the units is the sales total |
| `Sales.SummarizeAsWritten` | main.py:205-206 | as written, `.get` on the response list fails for every response |
| `Sales.SummarizeAsWrittenFailsOnSale` | main.py:205-206 | one unit sold at 100: no report as written, a report as intended |
| `Sales.SummarizeExample` | main.py:205-216 | 2 units at 100 and 3 at 50 give 5 units, 350 in sales and 70 on average |
| `Sales.SummarizeEmpty` | main.py:216 | no records give the no-units error, never a division by zero |
| `Sales.SummarizeAppend` | main.py:205-214 | every total over two batches is the sum of the batches' totals |
| `Sales.SalesBetween` | main.py:205-206 | with no returns, sales lie between the units times the lowest and times the highest price |
| `Sales.AverageWithinPrices` | main.py:216 | with no returns, the average price lies between the lowest and the highest retail price |
| `Report.ProcessReport` | main.py:177-217 | for data passing the `report_` filter: unknown button, no alias, empty or missing response and failed summary each give their outcome, each exactly in its case; the report is exactly the summary of the selected shop's records fetched with its key for the resolved range |
| `Report.NoAliasNoReport` | main.py:196-198 | for a report button, a reply that is no alias never yields a report |
| `Report.ButtonAndYesterdayReport` | main.py:171-200 | button `i` and 'Вчера' report on shop `i`'s records for 2023-01-06 |
| `Bot.HandleMessage` | main.py:68-174 | per chosen handler: the dialog transition (with /addshop keeping the stored name), the reply kind for every handler (for /report the intended keyboard, see Findings), and that only a valid key changes the registry |
| `Bot.AddShopConversation` | main.py:84-117 | `/addshop`, a name and a key end idle, with `{name, key}` appended for a valid key and the registry unchanged otherwise |
| `Bot.InterleavedRegistrations` | main.py:84-117 | two users registering interleaved each get their own name paired with their own key |

## Findings

| source | as written | input that shows it | evidently intended | confidence | as-written member | corrected member |
|---|---|---|---|---|---|---|
| main.py:134 | shop names are compared with the FSM state `Register.name`, which equals only the string "Register:name" | in `Shops.ShopRegistry.ConfirmDelete` (the program never reaches this line, see below): shop "A" and the reply "A" | compare with the reply text | high, not executed | `Shops.DeleteByStateNameMissesShop` | `Shops.DeleteByTextFinds` |
| main.py:179-181 | the callback suffix, a shop index, is compared with shop names | one shop "Ozon" and its button `report_0` | take the suffix as the index into the shop list | high, not executed | `Callback.SelectAsWrittenMissesOnlyShop` | `Callback.SelectEncode` |
| main.py:33-34 | a missing config file loads as `[]`, and `config['shops']` on it raises TypeError | no config.json, then a valid `/addshop` dialog or `/shops` | a missing store is an empty registry | high, not executed | `Shops.AbsentStoreHasNoShops` | `Shops.LoadShops` |
| main.py:205-206 | `sales_data.get(...)` is called on the list of records | a response with one record selling one unit | sum each field over the records | high, not executed | `Sales.SummarizeAsWrittenFailsOnSale` | `Sales.Summarize` |
| main.py:169-172 | the shop keyboard is built with the aiogram 2 API: aiogram 3's `InlineKeyboardMarkup()` requires `inline_keyboard`, `InlineKeyboardButton` takes its text only by keyword, and the markup has no `add`, so the construction raises | `/report` with one registered shop | one button per shop, captioned with its name, with data `report_<index>` | high, not executed | `Callback.KeyboardAsWrittenNeverSent` | `Callback.Buttons` |

The rest of the model uses the corrected members: /report replies with the
`Callback.Buttons` keyboard, `Report.ProcessReport` selects
with `Callback.Select` and summarises with `Sales.Summarize`, and the registry is
loaded with `Shops.LoadShops`.  As written no keyboard is ever sent, so no report
button can be pressed; the main.py:179-181 and main.py:205-206 rows describe the
code that a pressed button would run.  The first row shows the discrepancy in the
modelled confirm_delete, not in a run of the program: confirm_delete never runs,
because register_name handles the same state first (`Router.ConfirmDeleteShadowed`),
and were it reached with a config file present, iterating over the loaded
document would raise TypeError before the comparison (main.py:133-134); with no
file the document is `[]`, the search finds nothing and the answer is "not found".

## Left out

- Chat transport: aiogram `Bot`, `Dispatcher`, polling, `reply`/`answer`, `answer_callback_query` and keyboard markup objects; replies are reduced to which answer is given (`Bot.Reply`), without the Russian texts.
- `validate_api_key` and `get_sales_report` (HTTP to the Wildberries API): the boolean `keyValid` and the function `fetch` stand for their results.
- JSON file reading and writing: the document is a datatype and the registry one in-memory object; the source reloads the file in every handler.
- The handler that process_report registers at run time (main.py:189): `Report.ProcessReport` applies it to the first reply that reaches get_period, that is one no handler registered earlier takes (`Router.NameEntryTakesMessage`); that it stays registered, accumulates and answers any user's message is not modelled.
- Float arithmetic: money is integer kopecks and the average is exact, so rounding of the printed figures is not modelled.
- `Period.LowerChar`, `Period.Lower`: lower-case Latin and Cyrillic capitals only, not the rest of Unicode.
- `Router.CommandName`: does not check an `@botname` mention, leading whitespace, other whitespace separators or case-insensitive matching; messages without text are not modelled.
- `Callback.ParseNat`: accepts only ASCII digits, not the signs, underscores and surrounding whitespace that Python's `int` also accepts.
- `Bot.HandleMessage`: for /report with a non-empty registry it replies with the intended keyboard (`Callback.Buttons`); as written main.py:169-172 raises under aiogram 3 and no reply is sent (Findings).
- `Bot.HandleMessage`: delete_shop's emptiness test is applied to the shop list; as written it tests the loaded document, which is non-empty whenever the file holds a non-empty object (a file holding `{}` or `[]` also answers "no shops"). /start and /help are reduced to their reply kind, and /shops and /report use the corrected load, where as written a missing file makes them raise.
- confirm_delete iterates over the loaded document itself rather than its `shops` list (main.py:133-134); `Shops.ShopRegistry.ConfirmDelete` searches the shop list.
- The echo of name and key before the success message (main.py:103).
- Concurrency: each user is a separate `Session`; the interleaving of awaits inside one handler and simultaneous writes to the config file are not modelled.
- The asyncio entry point (main.py:220-224).
