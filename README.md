# Smart Grocery: a verified model of its core

Smart Grocery is a web application. It reads grocery items from photos of a pantry (the stock agent) and from photos of till receipts (the receipt agent). It keeps the items in database tables and answers a user's questions through a chat model, grounding each answer in the user's own data (the grocery analyzer). Every morning it e-mails a summary of the items low in stock and the items about to expire.

This project models the deterministic logic around the application's foreign services and proves properties of it. The foreign services are the image-to-JSON model, the sentence encoder with its vector index, the chat-completion endpoint, the markdown renderer and the databases. In the model each of them is an input, an oracle parameter or an in-memory table.

Modules, one per concern:

- `Wrappers`: `Option` and `Result`.
- `Text`: the Python `str` operations the code relies on.
  - `strip()`, `startswith`/`endswith`, `sep.join`.
  - `replace("**", "")`.
  - `str()` of an integer and `repr()` of a string.
- `Values`: decoded JSON and Python values, with dictionaries as ordered association lists.
  - `dict.get`, `key in x`, truthiness.
  - `str()`/`repr()`.
  - `int()` and `float()` with their exceptions.
- `Dates`: `datetime.strptime(s, "%Y-%m-%d")` and `strftime("%Y-%m-%d")`. This is the extended calendar-date form of ISO 8601 (section 5.2.1.1), read leniently the way `strptime` reads it, with ASCII digits only.
- `ImageExtraction`: what both extraction agents share.
  - The image-path check and the declared MIME type.
  - Unwrapping a reply fenced as a JSON code block.
- `Rows`: tables as sequences of rows, and `WHERE` clauses as order-preserving filters.
- `StockAgent`, the stock agent:
  - the item-mapping loop of `process_stock_image` and its exception routing;
  - the input checks of `save_to_db`;
  - the three stock tables, with `delete_stock` (and its cascade) and `delete_all_stock` as a class;
  - the queries `fetch_all_stockitems`, `fetch_stock` and `get_latest_stock_by_user`.
- `GroceryAgent`, the receipt agent:
  - the `GroceryItem` model and its date validator;
  - the shape and key checks of `process_receipt`, with the item loop;
  - the receipts table with `update_quantity`, `delete_item` and `delete_all_items` as a class.
- `AnalyzerKnowledge`: the analyzer's safe fetches, stock validation and the knowledge lines.
- `AnalyzerCache`: the analyzer as a class.
  - Its per-user caches (index and knowledge).
  - The least-recently-used memo in front of `fetch_knowledge_base`.
  - `retrieve_context`.
- `AnalyzerGeneration`: the analyzer's answer path.
  - The prompt.
  - The chat-completion call with its retry policy.
  - The response normaliser.
  - `generate_response`.
- `EmailSummary`: the subject and the HTML body of the daily summary.

Foreign results enter as parameters:

- Whether the image file exists (`fileFound`) and the model's reply text (`reply`, `None` when the model call raised).
- `json.loads` (`jsonLoads`).
- Whether encoding succeeded (`encoded`) and the positions the nearest-neighbour search returned (`SearchOutcome`).
- The outcome of each POST attempt (`llm`).
- The elements of the rendered HTML (`render`).
- What each data source returned (`FetchOutcome`).
- The day the summary is sent.

## Model

| member | source | states |
|---|---|---|
| ImageExtraction.CheckImagePath | src/agents/stock_agent.py:150-152 | A path is accepted iff it is a string ending (case-sensitively) in `.png`, `.jpeg` or `.jpg`. Anything else gives ValueError with the fixed message. |
| ImageExtraction.UpperCaseSuffixRejected | src/agents/grocery_agent.py:70-72 | `receipt.PNG` and `receipt.JPG` are refused; `receipt.png` is accepted. |
| ImageExtraction.StockMimeType | src/agents/stock_agent.py:169 | The stock upload is declared `image/png` iff the path ends in `.png`, otherwise `image/jpeg`. |
| ImageExtraction.ReceiptMimeType | src/agents/grocery_agent.py:89-92 | The receipt upload is always declared `image/jpeg`. |
| ImageExtraction.StripJsonFence | src/agents/stock_agent.py:173-174 | Unfenced text is unchanged. Fenced text (at least 10 characters long) becomes `text[7:-3]` stripped. |
| ImageExtraction.UnwrapReply | src/agents/grocery_agent.py:94-96 | The text handed to `json.loads` has no surrounding whitespace. Unfenced text is only stripped. |
| ImageExtraction.UnwrapFenced | src/agents/stock_agent.py:171-174 | A fenced body surrounded by any whitespace unwraps to the stripped body. |
| ImageExtraction.OneFenceRemoved | src/agents/grocery_agent.py:95-96 | Only one fence is removed: a doubly fenced body keeps its inner fence. |
| Text.StripIdempotent | src/agents/stock_agent.py:171 | `strip()` is idempotent. |
| Text.RemoveAllStarsLeavesNone | src/agents/grocery_analyzer.py:220 | After `replace('**', '')` no `**` remains, however the stars were arranged. |
| Values.Lookup | src/agents/stock_agent.py:180 | A key is found iff the dictionary holds it, and the value found is stored under it. |
| Values.In | src/agents/grocery_agent.py:106 | `key in x` tests keys of a dict, elements of a list and substrings of a str. It raises TypeError exactly for None, bools and numbers. |
| Values.IntOf | src/agents/stock_agent.py:181 | `int(x)`: ints are unchanged, bools give 0/1, floats truncate toward zero. Infinity gives OverflowError, NaN and bad text give ValueError, other types give TypeError. |
| Values.IntLiteralRoundTrip | src/agents/stock_agent.py:184 | `int(str(i)) == i` for every integer. |
| Values.FloatLiteralOfInt | src/agents/stock_agent.py:182 | `float()` of an integer's text is that integer. |
| Dates.Strptime | src/agents/grocery_agent.py:30 | A parsed date is always a real Gregorian date, years 1 to 9999. |
| Dates.Strftime | src/agents/grocery_agent.py:31 | The output is ten characters, `DDDD-DD-DD`. |
| Dates.StrptimeOfStrftime | src/agents/grocery_agent.py:30-31 | Formatting a date and parsing it back gives the same date. |
| Dates.ValidateAndFormatDate | src/agents/grocery_agent.py:27-33 | A string is accepted iff `strptime` accepts it, and the result names the same date. A rejected string raises ValueError with the fixed message. A non-string raises TypeError. |
| Dates.NormalisedDateIsFixedPoint | src/agents/grocery_agent.py:30-31 | A normalised date validates to itself. |
| GroceryAgent.NewGroceryItem | src/agents/grocery_agent.py:19-33 | Construction succeeds iff name and category are strings, quantity >= 0, weight >= 0 (default 0.0) and both dates are valid. The stored dates are normalised. A non-string date raises TypeError; every other failure is a validation error. |
| GroceryAgent.GroceryItemBounds | src/agents/grocery_agent.py:21-22 | A negative quantity or a negative/NaN weight is rejected. The omitted weight is 0.0. |
| GroceryAgent.NormalForm | src/agents/grocery_agent.py:31 | A validated date is ten characters, digits with dashes at positions 4 and 7. |
| GroceryAgent.CheckItemKeys | src/agents/grocery_agent.py:106-108 | A dict item passes iff it has all six keys and comes back unchanged. A dict, list or str that fails raises ValueError naming the item. Any other value raises TypeError. |
| GroceryAgent.BuildItemAsWritten | src/agents/grocery_agent.py:110-116 | As written, building an item always fails. |
| GroceryAgent.BuildItem | src/agents/grocery_agent.py:110-116 | The corrected construction yields only valid items. A non-dict raises AttributeError. |
| GroceryAgent.AsWrittenYieldsNoItems | src/agents/grocery_agent.py:104-120 | As written, the item loop can succeed only on an empty list; any item makes it raise. |
| GroceryAgent.MilkReceipt | src/agents/grocery_agent.py:105-118 | For one complete receipt line the code as written raises TypeError. The corrected loop yields the Milk item. |
| GroceryAgent.ReceiptItemsOutcome | src/agents/grocery_agent.py:104-120 | The loop succeeds iff every item passes the key check and builds. Its output is then one item per input, in order. |
| GroceryAgent.MissingKeyAborts | src/agents/grocery_agent.py:106-108 | The first item missing a key aborts the whole call with its error. |
| GroceryAgent.ReceiptErrorPersists | src/agents/grocery_agent.py:105-108 | Once the loop has raised, later items do not matter. |
| GroceryAgent.ProcessReceiptItems | src/agents/grocery_agent.py:104-120 | The append loop computes the item list, or the first exception. Items are built by the corrected line 116 (`item.get("expiration_date")`, see Findings). |
| GroceryAgent.ProcessReceipt | src/agents/grocery_agent.py:69-124 | A bad path raises ValueError before any file access. A missing file or undecodable JSON becomes RuntimeError. Non-list JSON raises RuntimeError with the fixed message. An empty list yields `[]`. A list yields the loop's outcome, with items built by the corrected line 116 (see Findings). Every returned item is valid. |
| GroceryAgent.UpdateChangesOnlyTheRow | src/agents/grocery_agent.py:150-151 | Only rows with the id get the new quantity; no matching row leaves the table unchanged. |
| GroceryAgent.DeleteRemovesOnlyTheRow | src/agents/grocery_agent.py:165 | With unique ids, deleting removes exactly the row with the id; no match changes nothing. |
| GroceryAgent.ReceiptTable.UpdateQuantity | src/agents/grocery_agent.py:145-158 | The table becomes the updated rows and keeps unique ids. |
| GroceryAgent.ReceiptTable.DeleteItem | src/agents/grocery_agent.py:160-172 | The table loses the row with the id and keeps unique ids. |
| GroceryAgent.ReceiptTable.DeleteAllItems | src/agents/grocery_agent.py:189-195 | The table is empty. |
| StockAgent.MapItem | src/agents/stock_agent.py:179-185 | A non-dict raises AttributeError. A dict converts iff `int(quantity)`, `float(weight)` and `int(shelf_life)` all succeed, with defaults 1 and 1.0 and none for shelf life. The first failure in that order gives the error. On success the fields hold the converted values, and name and category are passed through. |
| StockAgent.Validate | src/agents/stock_agent.py:187 | `StockData` accepts a mapped item iff its name and category are strings, keeping all fields. |
| StockAgent.DefaultsApplied | src/agents/stock_agent.py:181-182 | An item without quantity and weight gets quantity 1 and weight 1.0 and is kept. |
| StockAgent.MissingShelfLifeFails | src/agents/stock_agent.py:184 | A missing shelf life makes `int(None)` raise TypeError. |
| StockAgent.SkippedItem | src/agents/stock_agent.py:186-191 | An item failing validation is skipped without changing the result. |
| StockAgent.ProcessItemsOutcome | src/agents/stock_agent.py:177-192 | The loop succeeds iff every item converts. The result is then exactly the items that validate, in input order. |
| StockAgent.FirstConversionErrorAborts | src/agents/stock_agent.py:181-184 | The first conversion failure aborts the loop with that error. |
| StockAgent.MapExtractedItems | src/agents/stock_agent.py:177-192 | The append loop computes the mapped items. |
| StockAgent.IterationItems | src/agents/stock_agent.py:178 | A list yields its items, a dict its keys as strings in order, a string its characters in order. Anything else raises TypeError. |
| StockAgent.OnlyListsYieldRecords | src/agents/stock_agent.py:178-185 | Parsed JSON that is a non-empty dict or string fails, because its elements are strings. |
| StockAgent.ProcessStockImage | src/agents/stock_agent.py:149-204 | A bad path raises ValueError before any file access. A missing file raises FileNotFoundError. A decode failure raises ValueError with the fixed prefix. Any other failure becomes RuntimeError. On decoded JSON, the call succeeds iff the JSON yields an item list and every item converts; a failed item list or a failed conversion aborts with that error wrapped in RuntimeError. Success returns the validated items. |
| StockAgent.SaveToDbCheck | src/agents/stock_agent.py:207-213 | Falsy data raises "No data provided to save."; truthy non-list data raises "Data must be a list of dictionaries."; only a non-empty list passes. |
| StockAgent.StockTables.DeleteStock | src/agents/stock_agent.py:314-338 | No matching item changes nothing. Otherwise that stock row is removed. The batch's image and all_stock rows go iff no stock row of the batch remains. |
| StockAgent.StockTables.DeleteAllStock | src/agents/stock_agent.py:358-369 | Each of the three tables loses exactly the user's rows. |
| StockAgent.DeleteRemovesExactlyTheItem | src/agents/stock_agent.py:319-326 | With unique ids, the stock table after deletion is the table without the found row. |
| StockAgent.DeleteStockSparesOtherUsers | src/agents/stock_agent.py:326-338 | No other user's row is removed from any table. |
| StockAgent.CascadeRemovesTheBatch | src/agents/stock_agent.py:334-338 | The cascade removes exactly the user's rows for that stock id. |
| StockAgent.DeleteAllStockRemovesUser | src/agents/stock_agent.py:363-367 | A row survives iff it belongs to another user. |
| StockAgent.FetchedRecordsAreTheUsersRows | src/agents/stock_agent.py:244-291 | The fetched records are exactly the records of the user's rows (and of the stock id). |
| StockAgent.MaxStockId | src/agents/stock_agent.py:395 | `MAX(stock_id)` is attained by a row and bounds every row. |
| StockAgent.LatestStockEmptyIffNoRows | src/agents/stock_agent.py:385-400 | The latest batch is empty iff the user has no stock rows. |
| StockAgent.LatestStockIsNewestBatch | src/agents/stock_agent.py:391-400 | The result is exactly the user's rows carrying the user's largest stock id. |
| AnalyzerKnowledge.SafeFetchStock | src/agents/grocery_analyzer.py:85-93 | The result is exactly the fetched records that pass validation. Nothing comes back when the fetch returned nothing or raised. |
| AnalyzerKnowledge.SafeFetchStockKeepsOrder | src/agents/grocery_analyzer.py:89 | The comprehension goes record by record: one record is kept iff valid, and the result for a concatenation is the results for its parts in order, so order and duplicates are kept. |
| AnalyzerKnowledge.SafeFetch | src/agents/grocery_analyzer.py:95-113 | Receipts and user info are passed through unfiltered; nothing on `None` or an exception. |
| AnalyzerKnowledge.FetchedStockIsValid | src/agents/grocery_analyzer.py:115-117 | Every record the stock agent's fetch builds passes validation, so none is dropped. |
| AnalyzerKnowledge.StockLine | src/agents/grocery_analyzer.py:122 | A stock line exists iff name, quantity and category are present, and it begins with `Stock: `. |
| AnalyzerKnowledge.ReceiptLine | src/agents/grocery_analyzer.py:124 | A receipt line exists iff name and purchase date are present, and it begins with `Receipt: `. |
| AnalyzerKnowledge.UserLine | src/agents/grocery_analyzer.py:126 | A user line always exists, with defaults, and begins with `User: `. |
| AnalyzerKnowledge.KnowledgeLayout | src/agents/grocery_analyzer.py:119-127 | There are \|stock\|+\|receipts\|+\|users\| lines: stock lines first, then receipt lines, then user lines, each group in input order. Each group's lines carry their prefix. |
| AnalyzerKnowledge.KnowledgeOfValidRecords | src/agents/grocery_analyzer.py:119-127 | Validated stock plus receipts with name and purchase date always build. |
| AnalyzerKnowledge.ReceiptWithoutDateFails | src/agents/grocery_analyzer.py:124 | A receipt without purchase date makes the build raise. |
| AnalyzerKnowledge.BuildKnowledgeItems | src/agents/grocery_analyzer.py:119-127 | The three append loops compute the knowledge lines. |
| AnalyzerCache.InitCache | src/agents/grocery_analyzer.py:77-83 | An existing entry is left untouched. A new user gets an empty index and no knowledge. No other entry changes. |
| AnalyzerCache.GroceryAnalyzer.InitializeUserCache | src/agents/grocery_analyzer.py:77-83 | The caches become `InitCache` of the old ones; the memo is untouched. |
| AnalyzerCache.GroceryAnalyzer.UpdateIndex | src/agents/grocery_analyzer.py:129-142 | A failed encoding raises and changes nothing. Otherwise the entry becomes the lines with an index of exactly that many vectors. A user without a cache raises KeyError naming the user id. |
| AnalyzerCache.TouchKeepsMemo | src/agents/grocery_analyzer.py:144 | A memo hit makes the user the most recent and keeps the LRU invariant. |
| AnalyzerCache.RememberKeepsMemo | src/agents/grocery_analyzer.py:144 | Storing keeps the LRU invariant and the other values. It evicts only when 100 entries are held, and then only the least recently used. |
| AnalyzerCache.GroceryAnalyzer.FetchKnowledgeBase | src/agents/grocery_analyzer.py:144-160 | A hit returns the memoised lines without fetching. A miss initialises the cache and builds the knowledge. Empty knowledge is memoised without touching the index. Non-empty knowledge rebuilds the index and is memoised. Exceptions are not memoised. |
| AnalyzerCache.MemoHidesNewData | src/agents/grocery_analyzer.py:144-145 | After a successful call, a second call for the user returns the same lines whatever the sources now hold. |
| AnalyzerCache.GatherOutcome | src/agents/grocery_analyzer.py:171 | The comprehension succeeds iff no position is past the end. It then yields the lines at the non-negative positions, in the search's order. |
| AnalyzerCache.GroceryAnalyzer.RetrieveContext | src/agents/grocery_analyzer.py:162-176 | `[]` without an entry, with empty knowledge, or on an exception. Every line returned is one of the user's knowledge lines. |
| AnalyzerCache.GroceryAnalyzer.RetrieveFromIndex | src/agents/grocery_analyzer.py:165-173 | For positions from the user's index (-1 or below its size), the context is the lines at the non-negative positions. It has no more lines than positions, so at most 3 for `k=3`. |
| AnalyzerGeneration.PromptShape | src/agents/grocery_analyzer.py:250-268 | The prompt starts with the instructions and ends with `Query: {query}\nAnswer:`. The `Context:` block is there exactly when the context is non-empty, and every context line occurs in the prompt. |
| AnalyzerGeneration.ListRepr | src/agents/grocery_analyzer.py:253 | `str(context)` is `[]` for no context. It is bracketed and holds every context line quoted by `repr`. |
| AnalyzerGeneration.LlmCallOutcome | src/agents/grocery_analyzer.py:178-200 | The call answers iff a body arrives within three attempts, all earlier ones having failed with a `requests` exception. Three such failures give RetryError. Any other exception ends the call at once. |
| AnalyzerGeneration.CallLlmApi | src/agents/grocery_analyzer.py:178-200 | The retry loop computes the call's outcome in 1 to 3 attempts. Every attempt before the last failed with a `requests` exception. The body returned is the last attempt's. |
| AnalyzerGeneration.ExtractContent | src/agents/grocery_analyzer.py:206-207 | Content is found only in a dict whose `choices` is a non-empty list starting with a dict. What is found is the stripped `content` string of that first choice's `message` dict. |
| AnalyzerGeneration.WellFormedResponseGivesContent | src/agents/grocery_analyzer.py:206-246 | On an envelope whose first choice has a message with a string `content`, that content stripped is found, and the reply is the lines of its rendering joined by newlines and stripped. |
| AnalyzerGeneration.MissingChoicesGiveErrorReply | src/agents/grocery_analyzer.py:206-243 | Without a non-empty `choices` the reply is the fixed error text. |
| AnalyzerGeneration.LineFor | src/agents/grocery_analyzer.py:220-238 | Headings, `li` and `p` elements give a line and nothing else does. A list item's line is `- ` and its text with bold markers removed. |
| AnalyzerGeneration.OneLinePerElement | src/agents/grocery_analyzer.py:216-238 | Distinct elements of the searched tags give one line each, in document order. |
| AnalyzerGeneration.RepeatAddsNothing | src/agents/grocery_analyzer.py:217-219 | An element equal to an earlier one adds no line. |
| AnalyzerGeneration.CollectLines | src/agents/grocery_analyzer.py:214-238 | The loop with its `processed` set yields one line per searched element, skipping an element equal to one seen earlier. |
| AnalyzerGeneration.ProcessLlmResponse | src/agents/grocery_analyzer.py:203-246 | The reply is the collected lines joined by newlines and stripped, or the error text when no content is found. |
| AnalyzerGeneration.ReplyHasNoBold | src/agents/grocery_analyzer.py:216-240 | The reply never contains `**`. |
| AnalyzerGeneration.GenerateResponse | src/agents/grocery_analyzer.py:270-278 | A failed call gives the fixed apology; otherwise the reply is the formatted response. |
| EmailSummary.SubjectNamesTheDay | src/db_managers/email_sender.py:102 | The subject is the fixed prefix followed by the day as `YYYY-MM-DD`, which parses back to the same day. |
| EmailSummary.BodyFrame | src/db_managers/email_sender.py:104-139 | The body opens with the greeting naming the day and closes with the fixed footer. |
| EmailSummary.BodyListsItems | src/db_managers/email_sender.py:114-129 | Every low-stock and every expiring item has its `<li>` entry. A missing or empty list shows its fallback entry. |
| EmailSummary.EntriesListEach | src/db_managers/email_sender.py:115-116 | Each item's entry occurs among the appended entries. |
| EmailSummary.ComposeSummary | src/db_managers/email_sender.py:101-139 | The appending code computes the subject and the body, low-stock section before expiring section. |
| EmailSummary.AppendEntries | src/db_managers/email_sender.py:114-118 | The loop appends one entry per item in order, or the fallback for a falsy list. |

## Left out

- Foreign calls and I/O: Gemini extraction, file reads, the sentence encoder, the FAISS index and its L2 distances, the HTTP POST, markdown rendering and BeautifulSoup, MySQL and SQLite connections and schema DDL, SMTP, logging and `print`. Each enters as a parameter or an oracle, as listed above.
- The backoff waits of the retry decorator; only the attempts are modelled.
- `save_to_db`: only its input checks. The inserts do not match the declared schema:
  - `all_stock` has no `stock_id` column (src/agents/stock_agent.py:82-89 against 223).
  - The image insert omits the NOT NULL `stock_id` (src/agents/stock_agent.py:135 against 217).
- `save_data`, `fetch_all_items` and `get_latest_filename`: plain SQL with no rule beyond the query.
- src/db_managers/db_manager.py is not part of this model. Its `fetch_user_relevant_info` indexes a dictionary cursor positionally. So the user-info source raises and the analyzer's safe fetch yields nothing; `FetchOutcome` covers this.
- The receipt agent has no `fetch_all_receipts_items`. The analyzer's receipt fetch therefore raises AttributeError and yields nothing; `FetchOutcome` covers this too.
- src/main.py is not part of this model. It refers to a `SmartGroceryAnalyzer` class and an `analyzer.query` method that the analyzer file does not define.
- `lru_cache` keys on `(self, user_id)` and is shared by all instances. The model holds the memo in one analyzer.
- SQL result order is modelled as table order. `created_at` columns and auto-increment ids are not modelled.
- Floating point: weights are exact decimal rationals, with infinity and NaN. `int()` and `float()` accept ASCII digits only, without `_` separators.
- pydantic's error detail is not modelled; every validation failure is one ValueError.
- `strftime("%Y")` pads years below 1000 to four digits; whether C libraries do so is platform-dependent.
- The `KeyError` branch of `process_stock_image` is unreachable: `item.get` never raises KeyError, and `int(None)` raises TypeError.
- The detail text of a `json.JSONDecodeError` is an input.
- GroceryAgent.ProcessReceiptItems: models the corrected line 116. As written, every item reaching that line raises TypeError, so the loop succeeds only on an empty list (`AsWrittenYieldsNoItems`, see Findings).
- GroceryAgent.ProcessReceipt: builds items with the corrected line 116, as `ProcessReceiptItems` does. As written, `process_receipt` raises TypeError for every non-empty list whose first item passes the key, quantity and weight checks.
- Dates.Strptime: `%Y`, `%m` and `%d` accept ASCII digits only. Python's `\d` in these patterns also takes any other Unicode decimal digit, such as full-width or Arabic-Indic digits, which `int()` then reads. Such dates are rejected by the model with the fixed ValueError.
- Text.PyRepr: escapes only the non-printable characters up to U+00FF. Python's `repr` also writes non-printable characters above U+00FF as `\u` or `\U` escapes. This only changes the text of `int()` and `float()` ValueError messages.
- AnalyzerCache.GroceryAnalyzer.UpdateIndex: only an encoding failure is modelled. A failure inside `add`, after the index was replaced, would leave an empty index beside the old knowledge.
- AnalyzerCache.GroceryAnalyzer.RetrieveFromIndex: the bound of 3 lines holds because FAISS returns at most `k` positions. The model states the general bound, no more lines than positions.
- AnalyzerGeneration.CallLlmApi: attempt outcomes are a function of prompt and attempt number. Whether a failure is a `requests` exception, including an undecodable body, is part of that input.
- AnalyzerGeneration.LineFor: an element's text is the parser's stripped text, given as input. Equal tags are equal elements, as parsed tags compare by name, attributes and contents.
- EmailSummary.ComposeSummary: the item lists are `None` or lists. Another iterable passed by a caller is not modelled. Sending the e-mail is left out.

## Findings

| source | as written | input that shows it | evidently intended | confidence | as-written member | corrected member |
|---|---|---|---|---|---|---|
| src/agents/grocery_agent.py:116 | `item.get["expiration_date"]` subscripts the bound method `get`, which raises TypeError for every item that passed the key, quantity and weight checks | a receipt list holding one complete line: Milk, quantity 2, weight 1.0, dairy, purchased 2024-01-05, expiring 2024-01-12 | `item.get("expiration_date")`, so a complete line becomes a `GroceryItem` | not executed | GroceryAgent.MilkReceipt | GroceryAgent.ReceiptItemsOutcome |
