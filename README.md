# Kirana shop back office: a verified model

This project models the logic at the core of a small Indian grocery ("kirana") shop system. The system has four parts:

- a Node invoice service that fills an HTML template and stores the resulting PDFs;
- a React Native shopkeeper app, which provides translations, a notification list, order and ledger actions against Supabase, and a UPI payment link;
- a Deno edge function that fans push notifications out to Expo;
- a hook that refreshes screens when the app returns to the foreground.

Each source file is modelled by one Dafny module:

| module | file | source |
|---|---|---|
| `Invoice` | invoice.dfy | pdf-invoice-api/server.js: request defaults, item rows, the placeholder chain, display switches, file name, URLs, response |
| `InvoiceServer` | invoice_server.dfy | pdf-invoice-api/server.js: the invoices directory as a class; the generate handler's write and the retention sweep |
| `Substitution` | substitution.dfy | the general theory of a chain of global replacements filling a template |
| `I18n` | i18n.dfy | app/lib/i18n.tsx |
| `Notifications` | notifications.dfy | app/app/notifications.tsx |
| `Api` | api.dfy | app/lib/api.ts |
| `Uri` | uri.dfy | `encodeURIComponent`, used by the UPI link |
| `Push` | push.dfy | supabase/functions/send-push-notification/index.ts |
| `AutoRefresh` | auto_refresh.dfy | app/hooks/useAutoRefresh.ts |
| `Text`, `Wrappers` | text.dfy, wrappers.dfy | string helpers (replace-all, join/split, number formatting) and `Option`/`Result` |

Everything that changes state in the source is a class whose fields the methods update:

- the invoices directory;
- the language provider;
- the notification screen's list;
- the database tables the app writes;
- the `push_tokens` table;
- the refresh hook's refs.

Each such method is proved against a specification function. The results of I/O, the network, the clock and Supabase calls are method parameters.

Amounts are integers. The invoice service's amounts are in paise, so `toFixed(2)` is modelled exactly (`Text.FormatFixed2`).

The main results are these:

- **Placeholder chain.** The template is filled by seventeen chained global replacements. If neither the template's own text nor any request string can start a `{{…}}` placeholder, then every placeholder occurrence becomes its value and the rest of the template is kept (`Invoice.PopulateFillsTemplate`). The condition matters: a shop name that contains `{{NOTES}}` is itself replaced by a later step.
- **Retention sweep.** When every listed file is present and every expired one can be unlinked, the sweep deletes exactly the files older than seven days (`InvoiceServer.SweepOfListing`). It only ever deletes (`InvoiceServer.SweepOnlyDeletes`). A file that is fresh or unlisted survives it (`InvoiceServer.SweepKeepsFresh`).
- **Stock.** Stock never goes negative and never rises. A product is updated only when it is the single `ilike` match in its shop (`Api.StockStepEffect`, `Api.StockAfterNonNegative`, `Api.StockAfterNoIncrease`, `Api.StockAfterOnlyShop`).
- **UPI link.** The link splits back into its five fields, and the encoded note decodes to the note's UTF-8 bytes (`Api.UpiLinkFields`).
- **Push tokens.** A push token becomes inactive exactly when a ticket at the index of a message to that token reports `DeviceNotRegistered` (`Push.PushService.DeactivateRejected`, `Push.RejectedIff`).

Two behaviours of the code are worth knowing:

- `cleanupOldPdfs` (pdf-invoice-api/server.js:163-175) has no per-file try/catch, so the first throw ends the sweep. Both `statSync` and `unlinkSync` can throw: a file that disappears between the listing and its `statSync`, or an expired one the process may not delete. The sweep then ends (`InvoiceServer.Sweep` returns `Aborted`). It runs from a `setInterval` callback (pdf-invoice-api/server.js:178), and nothing in the file catches the exception, so it is uncaught and terminates the Node process: the invoice service stops, and no later sweep runs.
- The file name (pdf-invoice-api/server.js:125) replaces each character outside `[A-Za-z0-9-]` in the invoice number by `_` rather than removing it. So distinct invoice numbers such as `INV/7` and `INV 7` share the file `INV_7.pdf`, and the later PDF overwrites the earlier one (`Invoice.FilenameCollision`). The pattern has no `u` flag, so it works on UTF-16 code units: an emoji becomes `__`.

## Model

| member | source | states |
|---|---|---|
| Invoice.WithDefaults | pdf-invoice-api/server.js:36-53 | an omitted field takes its default ('My Kirana Store', 'Customer', 'INV-001', today's date, no items, zero amounts, empty strings, not paid); a supplied field is used as given; `is_paid` counts only when it is `true` |
| Invoice.UnitOrDefault | pdf-invoice-api/server.js:63 | `item.unit \|\| 'pcs'`: a missing or empty unit reads 'pcs', any other unit is kept |
| Invoice.Rows | pdf-invoice-api/server.js:59-67 | one row per item in input order; row k is numbered k+1 and carries the item's name, its quantity, its unit or 'pcs', its price and the amount qty × price |
| Invoice.RowsAppend | pdf-invoice-api/server.js:59-67 | appending an item appends exactly one row, numbered after the existing ones |
| Invoice.RenderRowsAppend | pdf-invoice-api/server.js:67 | the rows' HTML joined with '' distributes over concatenation of row lists |
| Invoice.ItemsHtmlAppend | pdf-invoice-api/server.js:59-67 | the items HTML of `items + [item]` is the items HTML of `items` followed by the one row of the new item, numbered \|items\|+1 |
| Invoice.Placeholder | pdf-invoice-api/server.js:70-100 | a placeholder is `{{`, then the name, then `}}`, four characters longer than its name |
| Invoice.GstLine | pdf-invoice-api/server.js:74 | `{{SHOP_GST}}` becomes "GSTIN: " + gst for a non-empty gst, and "" otherwise |
| Invoice.TaxRowStyle | pdf-invoice-api/server.js:86-91 | 'none' exactly when the tax amount is 0, and 'table-row' otherwise |
| Invoice.PaidStampStyle | pdf-invoice-api/server.js:94-100 | 'block' exactly when the invoice is paid, and 'none' otherwise |
| Invoice.PaidDateText | pdf-invoice-api/server.js:94-100 | the paid date when paid, "" when not |
| Invoice.PopulateTemplate | pdf-invoice-api/server.js:70-100 | the reassignment sequence, with both `if`s, equals applying the seventeen substitutions in the fixed order, each a replace-all |
| Invoice.DistinctPlaceholdersClean | pdf-invoice-api/server.js:70-100 | no match of one placeholder can begin inside a different placeholder |
| Invoice.ShapedChainIndependent | pdf-invoice-api/server.js:70-100 | a chain of distinct placeholders whose values cannot start a placeholder has independent steps |
| Invoice.ShapedChainFills | pdf-invoice-api/server.js:70-100 | such a chain fills a template whose literal text cannot start a placeholder |
| Invoice.ConcatSafe | pdf-invoice-api/server.js:67 | joining strings that cannot start a placeholder gives such a string |
| Invoice.DigitsSafe | pdf-invoice-api/server.js:81-83 | a digit string cannot start a placeholder |
| Invoice.NumbersSafe | pdf-invoice-api/server.js:59-83 | rendered numbers and `toFixed(2)` amounts cannot start a placeholder |
| Invoice.RowSafe | pdf-invoice-api/server.js:59-66 | a row is safe when its item's name and unit are |
| Invoice.RowsSafe | pdf-invoice-api/server.js:59-67 | all rows are safe when every item's name and unit are |
| Invoice.ItemsHtmlSafe | pdf-invoice-api/server.js:59-67 | the items HTML cannot start a placeholder when no item name or unit can |
| Invoice.ValuesSafe | pdf-invoice-api/server.js:70-100 | with safe request strings, no substituted value can start a placeholder |
| Invoice.SubstitutionsShaped | pdf-invoice-api/server.js:70-100 | with safe request strings the invoice's chain is a shaped chain in the fixed order |
| Invoice.PopulateFillsTemplate | pdf-invoice-api/server.js:70-100 | with safe request strings and template text, the chain replaces every placeholder occurrence by its value and keeps all other text |
| Invoice.Sanitize | pdf-invoice-api/server.js:125 | the result is as long as the invoice number in UTF-16 code units, and holds only `[A-Za-z0-9-]` and '_' |
| Invoice.SanitizeBmp | pdf-invoice-api/server.js:125 | for a number inside the Basic Multilingual Plane the length is unchanged, each allowed character is kept in place and every other becomes '_' |
| Invoice.SanitizeAppend | pdf-invoice-api/server.js:125 | the global replace works piece by piece: sanitising a concatenation concatenates the sanitised pieces |
| Invoice.SanitizeAt | pdf-invoice-api/server.js:125 | character i sits at code unit `Utf16Length(s[..i])` of the result: an allowed character is copied there, any other fills its one or two code units with '_' (`SanitizeChar`) |
| Invoice.SanitizeKeeps | pdf-invoice-api/server.js:125 | a number made only of allowed characters and '_' is unchanged |
| Invoice.SanitizeIdempotent | pdf-invoice-api/server.js:125 | sanitising a sanitised name changes nothing |
| Invoice.Filename | pdf-invoice-api/server.js:125 | the file name is the sanitised invoice number followed by '.pdf', four code units longer than the number |
| Invoice.FilenameCollision | pdf-invoice-api/server.js:125 | two invoice numbers that differ only in one disallowed character (such as 'INV/7' and 'INV 7') get the same file name, so the later PDF overwrites the earlier |
| Invoice.FilenameAstral | pdf-invoice-api/server.js:125 | an emoji is two code units and becomes two underscores: "A😀" gives "A__.pdf" |
| Invoice.PdfUrl | pdf-invoice-api/server.js:133-141 | `pdf_url` is the shortener's body only when it answered ok with a readable body, and the direct URL otherwise, including when the shortener threw |
| Invoice.SuccessResponse | pdf-invoice-api/server.js:129-151 | status 200; the invoice number is echoed; `filename` is the sanitised name; `original_url` is `http://HOST:8090/invoices/<filename>`; `pdf_url` is the shortener's body when its reply is ok and readable, and that URL otherwise; `message` is "Invoice <number> generated successfully" |
| InvoiceServer.SweepOnlyDeletes | pdf-invoice-api/server.js:163-175 | every file left after the sweep was there before, unchanged |
| InvoiceServer.SweepKeepsFresh | pdf-invoice-api/server.js:170 | a file not older than seven days (now − mtime ≤ 604800000 ms) or not listed survives the sweep |
| InvoiceServer.Unexpired | pdf-invoice-api/server.js:164-170 | exactly the files with now − mtime ≤ 604800000 remain |
| InvoiceServer.SweepPresent | pdf-invoice-api/server.js:163-175 | with every listed name present and every expired one unlinkable, the sweep finishes and removes exactly the listed expired files |
| InvoiceServer.SweepOfListing | pdf-invoice-api/server.js:163-175 | sweeping a fresh listing of the directory, with no failing unlink, leaves exactly the unexpired files |
| InvoiceServer.SweepIdempotent | pdf-invoice-api/server.js:163-175 | a second sweep at the same instant deletes nothing |
| InvoiceServer.InvoiceDirectory.Generate | pdf-invoice-api/server.js:34-159 | a failure to read the template, to render or to write answers 500 with 'Failed to generate PDF' and the error's message, and, when the file cannot be opened, writes nothing; otherwise the PDF of the filled template is stored under the sanitised name, overwriting any file of that name, and the success response is returned |
| InvoiceServer.InvoiceDirectory.CleanupOldPdfs | pdf-invoice-api/server.js:163-175 | the loop leaves the directory the sweep function gives: each listed expired file unlinked, stopping at the first name whose `statSync` throws (it is gone) or whose `unlinkSync` throws (an expired file that cannot be deleted) |
| Substitution.FillStep | pdf-invoice-api/server.js:70-84 | with independent steps and clean literal text, step i turns the document with i holes filled into the one with i+1 holes filled |
| Substitution.FillFirst | pdf-invoice-api/server.js:70-84 | the first n steps fill exactly the first n holes |
| Substitution.FillsTemplate | pdf-invoice-api/server.js:70-84 | the whole chain fills every hole of the template |
| Text.ReplaceAllAbsent | pdf-invoice-api/server.js:70-100 | a global replace of a pattern that does not occur leaves the string unchanged |
| Text.ReplaceAllSelf | pdf-invoice-api/server.js:70-100 | replacing a pattern by itself changes nothing |
| Text.ReplaceAllCleanPrefix | pdf-invoice-api/server.js:70-100 | a prefix in which no match can begin passes through a global replace untouched |
| Text.CleanUnchanged | pdf-invoice-api/server.js:70-100 | a string in which no match can begin is not changed by a global replace |
| Text.ReplaceAllHead | pdf-invoice-api/server.js:70-100 | a match at the front is replaced and scanning resumes after it |
| Text.NoPlaceholderStartIsClean | pdf-invoice-api/server.js:70-100 | text in which every `{` is followed by a non-`{` contains no start of a `{{…}}` match |
| Text.NoBraceNoPlaceholderStart | pdf-invoice-api/server.js:70-100 | text without `{` cannot start a placeholder |
| Text.NoPlaceholderStartAppend | pdf-invoice-api/server.js:59-100 | concatenating two such texts keeps the property |
| Text.ConcatAppend | pdf-invoice-api/server.js:67 | `join('')` distributes over concatenation |
| Text.SplitJoin | app/lib/api.ts:150 | splitting a `&`-join of fields without `&` gives back the fields |
| Text.ContainsOccurs | app/hooks/useAutoRefresh.ts:37 | the substring test holds exactly when the pattern occurs |
| Text.NatToString | pdf-invoice-api/server.js:61 | decimal digits, non-empty, with no leading zero except for 0 |
| Text.ParseNatToString | pdf-invoice-api/server.js:61 | reading the digits back gives the number |
| Text.IntToStringRoundTrip | app/lib/api.ts:71 | an integer's decimal text reads back as the same integer |
| Text.ParseTwoDigits | pdf-invoice-api/server.js:64-65 | the two-digit paise text reads back as the paise |
| Text.Fixed2Unsigned | pdf-invoice-api/server.js:64-65 | rupees, '.', two paise digits is well-formed and reads back as the amount |
| Text.FormatFixed2RoundTrip | pdf-invoice-api/server.js:64-83 | `toFixed(2)` of an amount in whole paise has the shape -?digits.dd and reads back as the same amount |
| I18n.Lookup | app/lib/i18n.tsx:127-129 | `t(key)` is the entry's text in the current language when the key is in the table and that text is non-empty; otherwise it is the key itself |
| I18n.DefaultContextIsIdentity | app/lib/i18n.tsx:102-106 | outside a provider the language is 'en' and `t` returns every key unchanged |
| I18n.ParseLang | app/lib/i18n.tsx:115-119 | a stored value is a language exactly when it is 'en' or 'hi', and then it is that language's code |
| I18n.ParseLangCode | app/lib/i18n.tsx:115-125 | the code `setLang` saves is read back as the same language |
| I18n.LanguageProvider.constructor | app/lib/i18n.tsx:111 | the provider starts in Hindi |
| I18n.LanguageProvider.LoadSaved | app/lib/i18n.tsx:113-120 | a saved 'en' or 'hi' replaces the language; any other stored value leaves it unchanged |
| I18n.LanguageProvider.SetLang | app/lib/i18n.tsx:122-125 | after `setLang(l)` the language is l and l's code is stored |
| Notifications.Icon | app/app/notifications.tsx:93-101 | each of the four known types has its fixed icon, in both directions; every other type, including 'system', has 'bell' |
| Notifications.Color | app/app/notifications.tsx:103-111 | each of the four known types has its fixed colour, in both directions; every other type has '#666' |
| Notifications.RouteFor | app/app/notifications.tsx:70-75 | 'new_order' routes to the orders tab, 'low_stock' to the inventory tab, anything else nowhere |
| Notifications.AgeOf | app/app/notifications.tsx:116-122 | with m = ⌊diff/60000⌋: m < 1 is just now; m < 60 is m minutes (1..59); m < 1440 is ⌊m/60⌋ hours (1..23); anything else is a date; each bucket is tied to its millisecond range |
| Notifications.FormatTime | app/app/notifications.tsx:113-123 | the text of each bucket: `t('just_now')`, "m" and "h" forms followed by `t('ago')`, the local date, and 'Invalid Date' for an unparseable time |
| Notifications.UnreadCountIsSize | app/app/notifications.tsx:125 | `filter(n => !n.is_read).length`: the count is the number of positions holding an unread notification |
| Notifications.UnreadCountZero | app/app/notifications.tsx:125 | the unread count is 0 exactly when every entry is read |
| Notifications.ShowsMarkAllIff | app/app/notifications.tsx:130 | the mark-all header shows exactly when some entry is unread |
| Notifications.MarkOneRead | app/app/notifications.tsx:65-67 | same length and order; the entries with the pressed id become read, every other entry is unchanged |
| Notifications.MarkOneReadCount | app/app/notifications.tsx:63-67 | with unique ids, pressing an unread entry lowers the unread count by exactly one |
| Notifications.AllReadCount | app/app/notifications.tsx:86 | a list with every entry marked read has unread count 0 |
| Notifications.NotificationsScreen.Fetched | app/app/notifications.tsx:23-37 | a failed fetch keeps the list; a successful one shows the rows, or nothing for null data |
| Notifications.NotificationsScreen.Press | app/app/notifications.tsx:61-76 | pressing a read entry changes no entry; pressing an unread one marks that id read unless the server call throws, in which case nothing happens; a route is pushed only for orders and low stock |
| Notifications.NotificationsScreen.MarkReadInPlace | app/app/notifications.tsx:65-67 | the in-place update leaves the list equal to the marked-one specification |
| Notifications.NotificationsScreen.MarkAllRead | app/app/notifications.tsx:78-91 | every entry becomes read with all other fields unchanged, and the unread count becomes 0 |
| Uri.Utf8 | app/lib/api.ts:150 | one to four bytes; one byte exactly for ASCII, and then the code itself |
| Uri.HexRoundTrip | app/lib/api.ts:150 | a hex digit reads back as its value |
| Uri.Escape | app/lib/api.ts:150 | `%` followed by two upper-case hex digits |
| Uri.EscapeAllAlphabet | app/lib/api.ts:150 | escapes contain only '%' and hex digits |
| Uri.EncodeAlphabet | app/lib/api.ts:150 | `encodeURIComponent` output holds only unreserved characters, '%' and hex digits, so never '&', '=' or a space |
| Uri.DecodeEscape | app/lib/api.ts:150 | decoding an escape yields its byte |
| Uri.DecodeEscapeAll | app/lib/api.ts:150 | decoding a run of escapes yields its bytes |
| Uri.DecodeEncodeChar | app/lib/api.ts:150 | decoding one encoded character yields its UTF-8 bytes |
| Uri.DecodeEncode | app/lib/api.ts:150 | percent-decoding `encodeURIComponent(s)` gives exactly the UTF-8 bytes of s |
| Api.SetStatus | app/lib/api.ts:22-25 | the order with the id gets the new status; every other order and the set of ids are unchanged; an unknown id changes nothing |
| Api.SetOngoing | app/lib/api.ts:58-62 | every `order_ongoing` row of the order gets the new stage; the others are unchanged |
| Api.ItemPositions | app/lib/api.ts:30-33 | exactly the positions of the order's rows, strictly ascending |
| Api.ItemsOf | app/lib/api.ts:30-33 | the order's rows in table order, one entry per row: entry j is the row at the j-th matching position, so stock is decremented once per row |
| Api.NewStock | app/lib/api.ts:49 | `Math.max(0, stock − quantity)`: never negative, never below stock − quantity, one of the two, and not above the stock for a non-negative quantity |
| Api.MatchIndices | app/lib/api.ts:41-46 | exactly the indices of this shop's products whose name `ilike`s the pattern, ascending |
| Api.StockStep | app/lib/api.ts:41-54 | one item's update keeps the product list's length and changes no column other than `stock` |
| Api.StockStepEffect | app/lib/api.ts:41-54 | the single match gets the clamped stock; with no match or several (`.single()` yields no row) nothing changes |
| Api.StockAfterNonNegative | app/lib/api.ts:39-55 | after all items, no stock is negative if none was |
| Api.StockAfterNoIncrease | app/lib/api.ts:39-55 | with non-negative quantities, no product's stock rises |
| Api.StockAfterOnlyShop | app/lib/api.ts:44 | another shop's products are never touched |
| Api.ConfirmNotice | app/lib/api.ts:65-73 | the recorded notification is a 'new_order' for the shop and the order with the title '✅ Order Confirmed'; its body starts with the customer's name and ends with '₹' followed by the amount's text, which reads back as `totalAmount` |
| Api.MethodOrCash | app/lib/api.ts:187 | an omitted payment method is 'Cash'; a given one is kept, even when empty |
| Api.OrNull | app/lib/api.ts:216-217 | `x \|\| null`: an absent or empty string is stored as null, any other is kept |
| Api.TxnNote | app/lib/api.ts:148 | 'Order-' followed by the first eight characters of the order id, or all of it if shorter |
| Api.NoAmpersandEncoded | app/lib/api.ts:150 | an encoded value never holds '&' |
| Api.NoAmpersandNumber | app/lib/api.ts:150 | a rendered amount never holds '&' |
| Api.QuerySeparable | app/lib/api.ts:150 | no field of the UPI query holds the '&' that separates the fields |
| Api.UpiLinkFields | app/lib/api.ts:145-151 | the link is 'upi://pay?' followed by a query that splits at '&' into exactly the five fields pa, pn, am, tn and cu; the encoded note decodes to the note's UTF-8 bytes |
| Api.Database.ConfirmOrder | app/lib/api.ts:19-80 | a failed status update throws and changes nothing; otherwise the order is confirmed, the stock follows the item loop (skipped if fetching the items fails), the ongoing rows are confirmed and the notification is appended; nothing else changes |
| Api.Database.DecrementStock | app/lib/api.ts:39-55 | the loop leaves the products equal to the fold of the per-item update over the items, in order |
| Api.Database.RejectOrder | app/lib/api.ts:82-102 | a failed first update throws and changes nothing; otherwise the order becomes rejected and the call succeeds, and its ongoing rows become rejected unless the unchecked second update fails, in which case they keep their stage |
| Api.Database.CompleteOrder | app/lib/api.ts:104-117 | status 'completed' and payment 'paid' are set together or not at all; other orders are unchanged |
| Api.Database.AddUdhaar | app/lib/api.ts:166-184 | one 'credit' ledger row with the given amount and description is appended, unless the insert fails |
| Api.Database.RecordPayment | app/lib/api.ts:187-205 | one 'payment' row whose description is the payment method ('Cash' by default) is appended, unless the insert fails |
| Api.Database.RecordQuickSale | app/lib/api.ts:208-227 | one cash 'sale' row is appended, with absent or empty name and item stored as null, unless the insert fails |
| Api.Database.RecordQuickUdhaar | app/lib/api.ts:230-248 | one 'udhaar' row with the name as given, the item or null, and no payment method is appended, unless the insert fails |
| Push.Unwrap | supabase/functions/send-push-notification/index.ts:24 | the notification is `payload.record` when present, otherwise the payload itself |
| Push.ActivePositions | supabase/functions/send-push-notification/index.ts:39-43 | exactly the positions of the shop's active rows, strictly ascending |
| Push.ActiveTokens | supabase/functions/send-push-notification/index.ts:39-43 | one token per active row of the shop, in table order: entry j is the token of the j-th matching row, so `sent_to` and the message count are the number of such rows |
| Push.ActiveTokensIff | supabase/functions/send-push-notification/index.ts:39-43 | a token is fetched exactly when some active row of the shop holds it |
| Push.MessageData | supabase/functions/send-push-notification/index.ts:67-71 | the message data holds the notification's own data plus `notification_id` and `type`, which override same-named keys |
| Push.Messages | supabase/functions/send-push-notification/index.ts:62-74 | one message per token, in token order: `to` is the token, title and body come from the notification, and the sound, channel and priority are fixed |
| Push.Deactivate | supabase/functions/send-push-notification/index.ts:100-103 | every row holding the token becomes inactive; other rows are unchanged |
| Push.PushService.DeactivateRejected | supabase/functions/send-push-notification/index.ts:91-108 | a row ends inactive exactly when it was inactive or its token is the non-empty `to` of a message whose same-index ticket is an error with `DeviceNotRegistered`; nothing else changes |
| Push.PushService.Handle | supabase/functions/send-push-notification/index.ts:18-126 | bad JSON answers 500; a missing or empty `shop_id` answers 400; a token query error answers 500; no tokens answers 200 'No push tokens found'; a failed send answers 500 with its message; otherwise the answer is 200 with `sent_to` equal to the number of tokens and the tickets, after the deactivations; the early exits change no row |
| Push.RejectedIff | supabase/functions/send-push-notification/index.ts:91-107 | a token is rejected exactly when it is non-empty and some ticket at the index of a message to it reports `DeviceNotRegistered` |
| Push.NoErrorNoChange | supabase/functions/send-push-notification/index.ts:93 | when no ticket is an error, no token is rejected |
| AutoRefresh.LeftForegroundIff | app/hooks/useAutoRefresh.ts:37 | of the five app states, exactly 'inactive' and 'background' match `/inactive\|background/` |
| AutoRefresh.Resolve | app/hooks/useAutoRefresh.ts:14 | an omitted interval is 30000 ms and an omitted `refreshOnFocus` is true; given options are kept |
| AutoRefresh.WakeCountOff | app/hooks/useAutoRefresh.ts:34-43 | with `refreshOnFocus` off, no sequence of state changes refreshes |
| AutoRefresh.WakeCountBound | app/hooks/useAutoRefresh.ts:34-43 | every refresh needs an 'active' event, and an 'active' event that follows 'active' never refreshes |
| AutoRefresh.AutoRefresher.constructor | app/hooks/useAutoRefresh.ts:14-16 | the options are resolved with their defaults, the state is the current app state, no interval is set and no listener is registered |
| AutoRefresh.AutoRefresher.Refresh | app/hooks/useAutoRefresh.ts:18-24 | one call of the fetch function; a failure is logged and not passed on |
| AutoRefresh.AutoRefresher.Mount | app/hooks/useAutoRefresh.ts:26-45 | mounting refreshes once, stores the interval's timer and registers the app-state listener |
| AutoRefresh.AutoRefresher.OnAppStateChange | app/hooks/useAutoRefresh.ts:34-43 | while the listener is registered, a refresh happens exactly when `refreshOnFocus` is on, the previous state is 'inactive' or 'background' and the next is 'active', and the stored state is the next state either way; without the listener nothing happens |
| AutoRefresh.AutoRefresher.Cleanup | app/hooks/useAutoRefresh.ts:47-52 | the interval is cleared exactly when a truthy timer id is stored, and the listener is removed |

## Left out

- File I/O, Puppeteer rendering, `fetch`, Supabase queries and AsyncStorage are not modelled as operations. Their outcomes (the template text, the rendered bytes, a write error, the shortener's reply, query errors, the Expo reply, the stored language) are parameters.
- `setInterval` for the daily sweep (pdf-invoice-api/server.js:178) and the refresh interval (app/hooks/useAutoRefresh.ts:31) are not modelled: timers only fire callbacks the model already has.
- InvoiceServer.InvoiceDirectory.CleanupOldPdfs: an `Aborted` sweep is where the model stops. Because the sweep runs inside a timer and the exception is never caught, the real process terminates at that point; the process, the HTTP server and its shutdown are not modelled.
- Concurrency is not modelled: overlapping requests that overwrite the same PDF, a language loaded from storage after `setLang`, and a refresh that is still running when the next starts.
- Text.ReplaceAll: `$&`, `$1` and the other special replacement patterns of JavaScript's `String.prototype.replace` are not modelled; the value is inserted literally.
- Invoice.WithDefaults: JSON `null` fields and non-string values are not modelled. A field is either absent or of its expected type.
- Text.FormatFixed2: amounts are whole paise. Fractional paise and the rounding of `toFixed(2)` on floating point are not modelled, and neither is the float product qty × price.
- Text.IntToString: amounts in the notification body and in the UPI link are integers. JavaScript's rendering of fractional numbers is not modelled.
- I18n.Translations: that every text in the table is non-empty is not proved. Evaluating the 73-entry table is too costly for the solver. The table's type alone guarantees that both languages are present.
- I18n.LanguageProvider.Current: the context's functions `setLang` and `t` are represented by the provider's methods and by `Lookup`.
- Notifications.NotificationsScreen.Press: `markNotificationRead` is reduced to its outcome. The server-side `notifications` row is not modelled.
- Notifications.NotificationsScreen.MarkAllRead: the server-side update's error is not checked by the source. The model ignores it as the source does, and the server row is not modelled.
- Notifications.FormatTime: the parsing of `created_at` and `toLocaleDateString` are inputs (an optional millisecond time and the date text).
- InvoiceServer.InvoiceDirectory.Generate: `fs.writeFileSync` opens the file with flag 'w', which truncates it. A write that fails after the open (a full disk, an I/O error) leaves an empty or partial file in place of an earlier PDF of that name. The model's `writeError` is a failure that leaves the directory as it was.
- Invoice.LineItem: quantities and prices are integers. A fractional quantity such as 0.5, which `${item.qty}` renders as "0.5" (pdf-invoice-api/server.js:63), is not modelled. Neither is an item without a `price`, where `item.price.toFixed` throws and the request answers 500 (pdf-invoice-api/server.js:64).
- Api.Database.ConfirmOrder: the errors of the stock updates, of the `order_ongoing` update and of the notification insert are not checked by the source. The model lets those writes succeed. A failing product lookup is the same as no unique match.
- Api.Database: the `ilike` match is a parameter. Its pattern semantics (`%`, `_`, case folding) are not modelled.
- Push.PushService.Handle: values in the notification's `data` are strings. A data value of another JSON type is not modelled. The environment variables and the Supabase client are not modelled.
- Push.PushService.DeactivateRejected: the errors of the deactivation updates are not checked by the source, and the model lets them succeed.
- Api.TxnNote: `orderId.slice(0, 8)` counts UTF-16 code units, and the model takes the first eight characters. They differ only for an id with a character outside the Basic Multilingual Plane among its first eight, where the source can cut a surrogate pair in half, leaving a lone surrogate that the model's characters cannot represent.
- Uri.Utf8: JavaScript strings are UTF-16. Lone surrogates, for which `encodeURIComponent` throws, are not modelled; characters are Unicode scalar values.
- The Telegram bot links, `sendPaymentReminder`, `openUPIPayment` and the rest of the screens are not part of this model.
