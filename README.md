# TikTok Wrapped: a verified model of the export normaliser and its views

TikTok Wrapped is a browser-only viewer for a TikTok data export. The user
uploads the export as JSON. `processTikTokData` normalises it into:

- a profile (name and birth date);
- a direct-message summary: contact to message count, plus the list of
  messages the owner sent;
- the raw login list;
- the raw shopping section.

The pages then derive their views from that result:

- the dashboard builds the contact table, the login list and the order
  totals;
- the chat page lists every chat thread;
- the summary cards rank products and friends and page through seven
  slides.

A second importer, `parseZipData`, turns a ZIP of text files into a record
shaped like the JSON export.

This project models those computations in Dafny and proves what they
promise.

Modules:

- `JsValues` (`js_values.dfy`): the part of JavaScript's value model the
  code relies on. This is a JSON tree plus `undefined`; truthiness; `||`;
  optional-chaining property access; `Object.keys` on objects, arrays and
  strings. A thrown `TypeError` is the `Err` case of a `Result`.
- `Records` (`records.dfy`): a JavaScript object used as a dictionary. It is
  an insertion-ordered list of pairs. `d[k] = v` keeps an existing key in
  place and appends a new one. The module also gives reference definitions
  for "sum the values per key" and "last value per key wins".
- `JsStrings` (`js_strings.dfy`): `indexOf`, `includes`, `replace` with a
  string pattern, `trim`, `toLowerCase`, `split(" ")[0]` and `parseFloat`.
- `DataProcessing` (`data_processing.dfy`): `processTikTokData`.
  - The profile `||` chains are functions.
  - The direct-message `forEach` is a method with loops, proved against
    the summary `SummaryOf` and the sent list `SentOf`.
- `Dashboard` (`dashboard.dfy`): the contact-table rows, the login mapping,
  and the order-totals loop of `app/page.tsx`. The page has two copies of
  the login mapping and the order loop. One runs on stored data
  (lines 89-107). The other runs on a fresh upload (lines 147-163). The two
  copies are identical, so one model serves both.
- `ChatList` (`chat_list.dfy`): the chat page's summary loop.
- `SummaryCards` (`summary_cards.dfy`):
  - the three top-five rankings, each a loop over the items followed by a
    sort;
  - the slide carousel.
- `ZipSections` (`zip_sections.dfy`): the loop that fills the file-content
  record, the first-match section lookup, and the fixed output record.

Where the code does something other than its labels suggest, the model
follows the code:

- **Contact keys.** Only the exact text "Chat History with" is removed from
  a thread label, because `replace` is case-sensitive. So
  "chat history with alice:" keeps its words and is not merged with
  "Chat History with Alice:" (`DataProcessing.LowerCaseHeaderIsNotStripped`).
- **String login list.** A login list given as a string is passed through
  unchanged, not split into lines. The dashboard's `loginData.map` then
  throws (`ZipSections.ZipLoginsAreNotMapped`).
- **ZIP orders.** The ZIP importer places the order history, as raw text,
  under "TikTok Shopping". The normaliser reads "Tiktok Shopping", so the
  orders are never read (`ZipSections.ZipOrdersAreNotRead`).
- **ZIP profile and chats.** The ZIP profile text sits where no profile
  lookup reads it, so both profile fields fall back to "Unknown". The
  string-valued chat history yields no contacts.

## Model

| member | source | states |
|---|---|---|
| JsValues.Or | app/utils/dataProcessing.ts:45-53 | `a \|\| b` is `a` when `a` is truthy and `b` otherwise; the result is truthy when either operand is |
| JsValues.FieldSpec | app/utils/dataProcessing.ts:45-47 | a property read gives the value of the first entry with that key, and `undefined` when there is none |
| JsValues.PathOfUndefined | app/utils/dataProcessing.ts:46 | an optional chain that meets `undefined` stays `undefined` |
| JsValues.Entries | app/utils/dataProcessing.ts:61 | `Object.keys`: an object's own fields; one index key per element of an array or string; nothing for other values |
| JsValues.EntriesOfSequences | app/chat/page.tsx:24 | an array or string lists element `i` under the key spelling `i` |
| Records.LookupOr | app/utils/dataProcessing.ts:70 | `d[k]` is the value at the key's first position, and the default when `k` is absent |
| Records.LookupPut | app/utils/dataProcessing.ts:70 | after `d[k] = v`, reading `k` gives `v` and every other key reads as before |
| Records.PutShape | app/utils/dataProcessing.ts:70 | assigning an existing key keeps the key order; a new key is appended |
| Records.PutDistinct | app/utils/dataProcessing.ts:70 | assignment never duplicates a key |
| Records.PutTwice | app/components/SummaryCards.tsx:56 | assigning a key twice leaves only the second value |
| Records.SumByKeySpec | app/components/SummaryCards.tsx:19-23 | accumulating per key gives, for each label, the sum of its values; the keys are exactly the labels that occur |
| Records.SumByKeyDistinct | app/components/SummaryCards.tsx:18-23 | the accumulated record never repeats a key |
| Records.LastByKeySpec | app/components/SummaryCards.tsx:56 | assigning in order leaves each label holding the value of its last occurrence; the keys are exactly the labels that occur |
| Records.LastByKeyDistinct | app/utils/parseZipData.ts:39 | the assigned record never repeats a key |
| JsStrings.IndexOf | app/utils/dataProcessing.ts:63 | `indexOf` finds an occurrence with no earlier one, or reports that there is none |
| JsStrings.IncludesIff | app/utils/parseZipData.ts:47 | `includes` holds exactly when the pattern occurs somewhere |
| JsStrings.RemoveFirstSpec | app/utils/dataProcessing.ts:63-64 | `replace(p, "")` changes nothing without an occurrence and otherwise cuts out exactly the first one |
| JsStrings.TrimEnds | app/utils/dataProcessing.ts:65 | a trimmed string neither starts nor ends with whitespace |
| JsStrings.TrimIsSlice | app/utils/dataProcessing.ts:65 | `trim` cuts whitespace, and only whitespace, from both ends |
| JsStrings.TrimOfTrimmed | app/utils/dataProcessing.ts:65 | a string without surrounding whitespace is its own trim |
| JsStrings.LowerHasNoUpper | app/utils/dataProcessing.ts:66 | `toLowerCase` leaves no upper-case letter |
| JsStrings.LowerOfLower | app/utils/dataProcessing.ts:66 | a string without upper-case letters is its own lower-case form |
| JsStrings.LowerAppend | app/utils/parseZipData.ts:47 | lower-casing distributes over concatenation |
| JsStrings.FirstWordSpec | app/page.tsx:103 | `split(" ")[0]` is the prefix before the first space, holds no space, and is followed by a space or the end |
| JsStrings.FirstWordAt | app/page.tsx:103 | a string whose first space is at `n` splits to its first `n` characters |
| JsStrings.DigitsSpec | app/page.tsx:103 | the digit scan splits a string at its first non-digit |
| JsStrings.ParseFloatDigits | app/page.tsx:103 | `parseFloat` of a plain digit string is its decimal value |
| JsStrings.ParseFloatDecimal | app/page.tsx:103 | `parseFloat` of "WHOLE.FRACTION" is the digits' value divided by ten to the number of fraction digits |
| JsStrings.ParseFloatNeedsDigit | app/page.tsx:103 | `parseFloat` of a string without any digit is NaN |
| DataProcessing.FirstTruthyOrSpec | app/utils/dataProcessing.ts:43-54 | the first truthy candidate is chosen, or the default when none is truthy |
| DataProcessing.OrChainIsFirstTruthy | app/utils/dataProcessing.ts:44-48 | a left-nested `\|\|` chain is the first truthy operand, else the last |
| DataProcessing.ProfileIsFirstTruthy | app/utils/dataProcessing.ts:43-54 | each profile field is its first truthy candidate in priority order (flat key, nested ProfileMap, Profile), else "Unknown"; so it is always truthy |
| DataProcessing.ProfileFieldsResolveIndependently | app/utils/dataProcessing.ts:43-54 | the name and the birth date may come from different shapes of the same export |
| DataProcessing.ContactKeyIsNormal | app/utils/dataProcessing.ts:62-66 | a contact key is lower-case and has no surrounding whitespace |
| DataProcessing.ContactKeyOfHeader | app/utils/dataProcessing.ts:62-66 | "Chat History with NAME:" is keyed by the trimmed, lower-cased NAME |
| DataProcessing.HeaderCaseVariantsMerge | app/utils/dataProcessing.ts:62-70 | headers whose names differ only in case or surrounding whitespace share one contact |
| DataProcessing.PrefixNeedsCapitalC | app/utils/dataProcessing.ts:63 | the prefix is matched case-sensitively: a label without a capital C keeps its words |
| DataProcessing.LowerCaseHeaderIsNotStripped | app/utils/dataProcessing.ts:62-66 | a lower-case header "chat history with NAME:" is keyed by the whole label without its colon |
| DataProcessing.CollectSent | app/utils/dataProcessing.ts:71-75 | the inner loop throws exactly when a message is null or has a truthy non-string `From`, and otherwise appends the sent messages of the thread |
| DataProcessing.VisitThread | app/utils/dataProcessing.ts:61-76 | one thread adds its length to its contact's count when it is an array and leaves everything alone otherwise |
| DataProcessing.ProcessDirectMessages | app/utils/dataProcessing.ts:57-77 | the loop over the threads throws exactly when some array thread throws, and otherwise yields the summary and the sent list of the reference definitions |
| DataProcessing.ProcessTikTokData | app/utils/dataProcessing.ts:39-91 | throws exactly for null or undefined data or a throwing thread; otherwise returns the resolved profile, the message data, `LoginHistoryList` or `[]`, and `data["Tiktok Shopping"]` unchanged |
| DataProcessing.SummaryCountIsSum | app/utils/dataProcessing.ts:70 | each contact's count is the total length of all the array threads that normalise to it |
| DataProcessing.SummaryKeyIff | app/utils/dataProcessing.ts:69-70 | a contact is a key exactly when some array thread is labelled with it |
| DataProcessing.SummaryKeysAreContacts | app/utils/dataProcessing.ts:61-70 | the keys are exactly the normalised labels of the array threads |
| DataProcessing.SummaryKeysDistinct | app/utils/dataProcessing.ts:58-70 | no contact appears twice in the summary |
| DataProcessing.SummaryCountsAllMessages | app/utils/dataProcessing.ts:69-70 | the counts add up to the total length of the array threads |
| DataProcessing.TotalMessagesIgnoresLabels | app/utils/dataProcessing.ts:62-70 | how labels normalise does not change the total number of messages |
| DataProcessing.SentIsOwnMessages | app/utils/dataProcessing.ts:71-75 | the sent list is exactly the owner's messages, in thread and message order |
| DataProcessing.SentBoundedBySummary | app/utils/dataProcessing.ts:70-75 | no contact has more sent messages than its count |
| DataProcessing.SentContactsAreKeys | app/utils/dataProcessing.ts:70-73 | every sent message's contact is a key of the summary |
| DataProcessing.UpperCaseUsernameSendsNothing | app/utils/dataProcessing.ts:72 | a user name with an upper-case letter never equals a lower-cased `From`, so nothing counts as sent |
| DataProcessing.NoArrayThreadsGiveNothing | app/utils/dataProcessing.ts:69 | threads that are not arrays contribute nothing |
| DataProcessing.MissingDirectMessagesGiveNothing | app/utils/dataProcessing.ts:57 | without a chat-history section there are no contacts and no sent messages |
| Dashboard.RowsSpec | app/page.tsx:237-252 | one row per summary key, numbered by position; sent is the number of sent messages to the contact; received and sent add up to the contact's count; no rows without a summary |
| Dashboard.RowsOfProcessedData | app/page.tsx:237-252 | on normalised data the rows have distinct contacts, each total is the thread-length sum, each sent count is the owner's messages, and no received count is negative |
| Dashboard.LoginEntry | app/page.tsx:89-93 | one login throws exactly when it is null or undefined; otherwise its date is kept when truthy and is "Unknown" when not |
| Dashboard.MapEntriesSpec | app/page.tsx:89-93 | mapping succeeds exactly when no entry is null or undefined, and then maps every entry in order |
| Dashboard.MapLoginsSpec | app/page.tsx:89-93 | `loginData.map` succeeds exactly on an array without null entries, giving one truthy date per entry |
| Dashboard.NoLoginHistoryGivesNoLogins | app/page.tsx:89-93 | without a login history the list is empty |
| Dashboard.ShoppingTotals | app/page.tsx:94-107 | falsy shopping data leaves the summary alone; otherwise the summary is the order totals or the exception they raise |
| Dashboard.SumOrders | app/page.tsx:96-107 | the order loop computes the reference totals over the `Object.keys` order |
| Dashboard.TotalsErrorPersists | app/page.tsx:100-106 | once an order throws, later orders do not matter |
| Dashboard.TotalsSpec | app/page.tsx:100-106 | a run of prices completes exactly when every price is known, and then counts every order and its spending is the sum of the amounts |
| Dashboard.OrderTotalsSpec | app/page.tsx:100-106 | the loop completes exactly when every order can be priced; then `totalOrders` is the number of orders and `totalSpending` the sum of their amounts |
| Dashboard.DefaultPriceIsZero | app/page.tsx:102-103 | the default price "0 USD" is worth 0 |
| Dashboard.MissingPriceAddsZero | app/page.tsx:102-103 | an order without a truthy `total_price` adds 0 |
| Dashboard.UnparseablePriceAddsZero | app/page.tsx:102-103 | a price whose first word holds no digit, an empty first word included, adds 0 |
| Dashboard.DecimalPriceAddsItsValue | app/page.tsx:102-104 | a price "WHOLE.FRACTION CURRENCY" adds the decimal value: the digits read as one number, divided by ten once per fraction digit |
| Dashboard.WholePriceAddsItsValue | app/page.tsx:102-103 | a price "DIGITS CURRENCY" adds the value of the digits |
| Dashboard.NoOrderHistoryGivesZero | app/page.tsx:96-107 | without an order history the totals are zero |
| ChatList.ChatSummaries | app/chat/page.tsx:20-37 | falsy data leaves the list alone; otherwise the loop yields the reference list of the contact-labelled threads |
| ChatList.ChatSummariesAppend | app/chat/page.tsx:24-36 | threads are listed independently, in order |
| ChatList.ChatSummariesCount | app/chat/page.tsx:30-35 | there is one entry per array thread |
| ChatList.EntriesPerContact | app/chat/page.tsx:24-36 | no merging: a contact is listed once for every array thread labelled with it |
| ChatList.MessagesMatchDashboard | app/chat/page.tsx:30-35 | over all of a contact's entries, the list shows as many messages as the dashboard's summary counts for it |
| ChatList.EntryOrigin | app/chat/page.tsx:30-35 | every entry is an array thread's label and length |
| ChatList.ListedContactOrigin | app/chat/page.tsx:25-33 | every listed contact is the normalised label of an array thread |
| ChatList.ContactsAreNormal | app/chat/page.tsx:25-33 | every listed contact is lower-case and trimmed |
| ChatList.SameContactListedTwice | app/chat/page.tsx:30-35 | two array threads of one contact give two entries here and one summed key on the dashboard |
| ChatList.CaseVariantsAreListedTwice | app/chat/page.tsx:25-35 | two headers that differ only in case give two entries for the same contact |
| ChatList.MissingChatHistoryListsNothing | app/chat/page.tsx:21-22 | without a chat-history section nothing is listed |
| SummaryCards.SortDescSpec | app/components/SummaryCards.tsx:28 | the descending sort orders by score and is a permutation |
| SummaryCards.TopFive | app/components/SummaryCards.tsx:28-29 | sort then `slice(0, 5)` keeps the smaller of five and the length; the result is descending; every result is an input; nothing left out scores above anything kept |
| SummaryCards.Accumulate | app/components/SummaryCards.tsx:21-22 | `if (!d[k]) d[k] = 0; d[k] += n` adds `n` to the key's current value |
| SummaryCards.Top5Purchased | app/components/SummaryCards.tsx:16-30 | no ranking without shopping data; otherwise the top five of the per-name quantity record built by the loop |
| SummaryCards.Top5PurchasedSpec | app/components/SummaryCards.tsx:16-30 | at most five entries, descending; each entry is a lower-cased product name with its total quantity |
| SummaryCards.Top5PurchasedIsTop | app/components/SummaryCards.tsx:28-29 | no product left out was bought more often than one kept |
| SummaryCards.Top5FriendsSpec | app/components/SummaryCards.tsx:32-40 | no ranking without a summary; otherwise at most five contacts, descending, each with its own count, and no contact left out has a larger count than one kept |
| SummaryCards.Top5Expensive | app/components/SummaryCards.tsx:46-65 | no ranking without shopping data; otherwise the top five of the per-name cost record and name record built by the loop |
| SummaryCards.Top5ExpensiveSpec | app/components/SummaryCards.tsx:46-65 | at most five entries, descending; each cost is the total price of its lower-cased name; each display name is the spelling of the last item with that name |
| SummaryCards.Top5ExpensiveIsTop | app/components/SummaryCards.tsx:63-64 | no product left out cost more than one kept |
| SummaryCards.SameLabels | app/components/SummaryCards.tsx:54-56 | the cost and name records are keyed by the same names |
| SummaryCards.SlideSteps | app/components/SummaryCards.tsx:450-455 | on the seven slides, next and previous step to the neighbour, wrap around at either end, and undo each other |
| SummaryCards.NavigateSpec | app/components/SummaryCards.tsx:450-455 | any sequence of presses lands on the start index plus the net number of forward presses, modulo seven, always a valid slide |
| ZipSections.ReadFiles | app/utils/parseZipData.ts:36-42 | the loop stores each file's text under its name, in completion order, and skips directories |
| ZipSections.FilePairsSpec | app/utils/parseZipData.ts:38-40 | only file members contribute, each with its own text |
| ZipSections.DirectoriesAreSkipped | app/utils/parseZipData.ts:38-40 | a name is a key exactly when some file member, not a directory, carries it |
| ZipSections.FilesKeepTheirText | app/utils/parseZipData.ts:36-40 | with distinct member names, each file's text is stored under its name |
| ZipSections.ContentsAreDistinct | app/utils/parseZipData.ts:33-40 | the content record never repeats a name |
| ZipSections.FindKeySpec | app/utils/parseZipData.ts:45-48 | `find` gives the first matching name, and nothing when no name matches |
| ZipSections.SectionSpec | app/utils/parseZipData.ts:45-50 | a section is the text of the first member, in record order, whose lower-cased name contains the needle, and "" when none matches |
| ZipSections.MatchedNameIsNotEmpty | app/utils/parseZipData.ts:48-50 | a name that matches a needle is never empty, so the truthiness test passes |
| ZipSections.MatchingIgnoresCase | app/utils/parseZipData.ts:47 | names that agree up to case match the same needles |
| ZipSections.MatchingIsBySubstring | app/utils/parseZipData.ts:62-64 | a name matches when the needle appears anywhere in it, under any folder and in any case |
| ZipSections.ParseZipData | app/utils/parseZipData.ts:31-102 | the result is the fixed record built from the content record |
| ZipSections.ZipRecordShape | app/utils/parseZipData.ts:55-99 | the record always has its four sections, each a string |
| ZipSections.ZipSectionsArePresent | app/utils/parseZipData.ts:55-99 | each section holds the text of the first member matching its needle, or "" |
| ZipSections.ZipOrdersAreNotRead | app/utils/parseZipData.ts:73-84 | the record has no "Tiktok Shopping" key, the key the normaliser reads |
| ZipSections.ZipProfileIsUnknown | app/utils/parseZipData.ts:56-58 | no profile lookup reads "Profile Info", so the name and birth date are "Unknown" |
| ZipSections.ZipChatHistoryGivesNoContacts | app/utils/parseZipData.ts:59-72 | the string chat history has no array threads, so there are no contacts and no sent messages |
| ZipSections.ZipLoginsAreNotMapped | app/utils/parseZipData.ts:85-98 | a non-empty login section is a string, on which the dashboard's `map` throws; an empty one gives no logins |

## Left out

- Storage and rendering are not modelled. This covers reading the export
  (`FileReader`, `JSON.parse`), the IndexedDB round trip, React state and
  effects, rendering, PNG export (`toPng`), and `getBusiestMonth` with the
  rest of the slide content. None of it is part of the normalisation.
- ZIP decompression (`JSZip.loadAsync`, `fileObj.async("text")`) is a
  library. It becomes the `ZipEntry` list given as input. Its order is the
  order in which the asynchronous reads finish, which the model takes as
  given.
- Object key order: records keep insertion order. JavaScript lists
  integer-like keys first, in numeric order; that rule is not modelled.
- Numbers are unbounded integers or exact reals, not IEEE doubles:
  - message counts and row numbers are integers;
  - order amounts are reals;
  - item quantities and item prices in the summary cards are integers.

  Rounding and overflow are therefore not modelled.
- `parseFloat` is modelled for decimal literals: leading whitespace, a sign,
  digits, and an optional fraction. An exponent is dropped: "1e3" reads as
  1, where JavaScript gives 1000. "Infinity" gives NaN, where JavaScript
  gives Infinity.
- Inherited object keys are not modelled. A record holds only its own
  keys. In JavaScript a `{}` dictionary also answers keys inherited from
  `Object.prototype`, such as "constructor", "toString" and "__proto__".
  A contact or product with such a name behaves differently there:
  - `d["constructor"] || 0` is the `Object` function, so the stored count
    becomes a string and the dashboard's received count becomes NaN;
  - assigning to `d["__proto__"]` stores no key, so that contact's sent
    messages name a contact with no summary entry.

  DataProcessing.SummaryCountIsSum, DataProcessing.SentContactsAreKeys and
  SummaryCards.Top5PurchasedSpec hold only for names that are not inherited
  keys.
- Objects with a repeated key are not excluded by the `Json` type. A value
  from `JSON.parse` never has one, because the last value wins. For a
  repeated key the model's property read takes the first entry and
  `Object.keys` lists the key twice. The lemmas about parsed data are meant
  for objects with distinct keys.
- `toLowerCase` is modelled on ASCII letters only. `trim` uses the
  ECMAScript whitespace set.
- `Array.prototype.sort` is a library call, modelled as a stable insertion
  sort on sequences.
  - SummaryCards.TopFive: the order among equal scores is not stated.
- SummaryCards.Top5Purchased: the card reads `shopping.purchasedItems`, but
  the dashboard stores a shopping summary with only `totalSpending` and
  `totalOrders`. The rankings therefore take the item list as an optional
  input, and the model does not say where that list comes from.
- Dashboard.ShoppingTotals: the model returns the new summary, or none. It
  does not track the previous React state that a falsy `shoppingData` leaves
  in place. The same applies to ChatList.ChatSummaries.
- A thrown exception is `Err` with a reason string. The page's `try/catch`
  around the upload path ("Invalid JSON file") is not modelled.
