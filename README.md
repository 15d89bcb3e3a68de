# pathfinder, modelled in Dafny

pathfinder is a Telegram bot deployed as two AWS Lambda functions. This project models its core:

- **Command registry.** A metaclass appends each command-handler class whose own body binds a truthy `command` to the module-level `REGISTERED_HANDLERS` list (`commands/command.py`). `load_handlers` instantiates every registered class and adds it to a dispatcher (`commands/__init__.py`).
- **`/stock` command.** A spider builds listing URLs from a product parameter table that every spider shares and that `dict.update` changes in place. It queues one result per product card and fans out one request per remaining page. The command's callback drains the queue, keeps the listings in stock, and formats the reply (`commands/stock.py`).
- **Lambda entry points.** Two response builders set `Content-Type` in a headers dict that they change in place; by default this is one dict shared across calls. `webhook` hands a POSTed update to a freshly configured dispatcher. `set_webhook` registers the deployment's public URL (`handler.py`).

The model follows the code's own form:

- Every object the code changes in place is a class whose methods state the whole new state. This covers the shared parameter table entries, the result queue, the registry, the dispatcher and the default headers dicts.
- Each loop is a method with invariants, proved against a specification function. Examples are the card loop, the page fan-out, the queue drain, the message loop, `dict.update` and `load_handlers`.
- Branching with no state of its own is a function. Examples are the stock callback's reaction, the two Lambda entry points' replies, the URL, the query-string decoding and Python's `int()`.

Python's semantics are written out where the code relies on them:

- Dicts keep insertion order: `update` replaces a value in place or appends a new key.
- `str(n)` and `int(b)` follow Python. `int()` strips whitespace, takes a sign, allows underscores between digits, and raises `ValueError` otherwise.
- A value's truthiness decides registration, and attributes are looked up through the class chain.
- The metaclass creates classes with `type.__new__` rather than `ABCMeta.__new__`, so the abstract `callback` of `CommandHandler` is not enforced. Instantiation fails only on a missing attribute or, in the library's `CommandHandler`, on a `command` that is not a string.
- Any exception raised is a `PyException`, carrying its type name and `str(e)`.

Outside code is not modelled. Scrapy, crochet, Telegram's library, `os.environ` and `json` appear in two ways:
- What they return in one invocation is given as data: `Page`, `Crawl`, `Chat` and `Services`.
- What the code asks of them is recorded as actions or calls: `Effects` and `Platform`.

A failure reply of the Lambda entry points embeds the exception's text: `"Exception " + str(e)` in `webhook`, and `"Exception: " + str(e)` in `set_webhook`.

Files:

| File | Contents |
|---|---|
| `Wrappers.dfy` | `Option`, `Result` and `Outcome` |
| `PyDict.dfy` | insertion-ordered `str → str` dicts and `dict.update` |
| `Text.dfy` | `"&".join` / `str.split`, `str(n)` and `int()` |
| `Stock.dfy` | the spider and the `/stock` callback |
| `Command.dfy` | classes, the metaclass, `CommandHandler.__init__` |
| `Commands.dfy` | the dispatcher and `load_handlers` |
| `Handler.dfy` | the response builders and the Lambda entry points |

## Model

| member | source | states |
|---|---|---|
| PyDict.StrDict.Update | commands/stock.py:76 | `d.update(extra)` on an object: its items become `Updated(old items, extra)`, one `WithItem` per pair of `extra` in order |
| PyDict.UpdatedGet | commands/stock.py:75-76 | after `update`, a key of `extra` holds `extra`'s value and every other key keeps its old value |
| PyDict.UpdatedKeys | commands/stock.py:75-76 | after `update`, the old keys keep their order and the new keys of `extra` follow in `extra`'s order |
| PyDict.UpdatedDistinct | commands/stock.py:76 | `update` keeps the keys of a dict distinct |
| PyDict.WithItemGet | handler.py:43 | setting one key changes that key's value and no other |
| PyDict.WithItemKeys | handler.py:43 | setting one key keeps the key order and appends the key only if it is new |
| PyDict.WithItemTwice | commands/stock.py:112 | setting the same key twice leaves the dict as if only the second value had been set |
| PyDict.IndexOf | commands/stock.py:76 | a key's position is its first occurrence |
| Text.SplitJoin | commands/stock.py:77 | splitting a `"&".join` of parts that contain no `&` gives back those parts |
| Text.NatToString | commands/stock.py:112 | `str(i)` for i ≥ 0 is a non-empty string of decimal digits |
| Text.DigitsValueOfNat | commands/stock.py:112 | the digits of `str(n)` read back as `n` |
| Text.ParseIntOfNat | commands/stock.py:110 | `int()` of the text `str(n)` is `n` |
| Stock.NewProductParameters | commands/stock.py:48-57 | the shared table: a fresh, distinct dict per product, holding the published filter and family ids |
| Stock.PccomponentesSpider.constructor | commands/stock.py:59-62 | a spider keeps the product id, the shared table and the result queue it is given |
| Stock.PccomponentesSpider.GenerateUrl | commands/stock.py:64-77 | an unknown product raises `KeyError`. Otherwise the product's shared entry becomes `Updated(entry, extra)` in place and the URL is `site_url + "/listado/ajax?"` followed by its `k=v` pairs joined with `&` in order. Every other product's entry is unchanged |
| Stock.QueryRoundTrip | commands/stock.py:77 | splitting the query string back on `&` and `=` gives exactly the merged entry, in insertion order |
| Stock.ListingUrlRoundTrip | commands/stock.py:77 | a generated URL decodes back to the entry it was built from |
| Stock.PccomponentesSpider.StartRequests | commands/stock.py:79-86 | exactly one request. Its URL is built from the entry with `page` set to `"0"`, and that is also the entry's new state |
| Stock.StartRequestParams | commands/stock.py:86 | the start request asks for page 0 and carries every other parameter of the entry unchanged |
| Stock.FirstRequestForRtx3080 | commands/stock.py:48-52 | the first URL for `rtx-3080` is `https://www.pccomponentes.com/listado/ajax?idFilters[]=7498&idFamilies[]=6&page=0` |
| Stock.ResultQueue.Put | commands/stock.py:107 | `put` appends at the back of the FIFO queue |
| Stock.ResultQueue.GetNoWait | commands/stock.py:152 | a non-blocking `get` takes the front item, or reports the queue empty (`queue.Empty`) and changes nothing |
| Stock.PccomponentesSpider.EnqueueCards | commands/stock.py:99-107 | one result per product card is queued, in document order, with `href` = `site_url` + the card's link (`None` formats as "None") |
| Stock.PccomponentesSpider.RequestPages | commands/stock.py:111-113 | requests for pages 1 .. n-1 in order, each built after setting the entry's `page`. The entry ends with `page` = `str(n-1)`, and an unknown product raises `KeyError` |
| Stock.PageRequests | commands/stock.py:111-113 | the fan-out holds exactly n-1 requests |
| Stock.FanOutCoversPages | commands/stock.py:110-113 | the j-th follow-up asks for page j+1 and carries every other parameter of the entry as it was before `parse` |
| Stock.PageUrlParams | commands/stock.py:112 | a URL with `page` set to `str(i)` asks for page i and keeps every other parameter's value |
| Stock.PccomponentesSpider.Parse | commands/stock.py:88-113 | the page's listings are queued first. Follow-ups are made only when the `currentpage` header is `"0"` and `int(totalpages)` is > 1, and are then exactly `PageRequests(entry, totalpages)`. A missing or malformed `totalpages` header raises. Otherwise the result is `None` and the entry is unchanged |
| Stock.RunSpider | commands/stock.py:122-133 | the crawl's listings are queued in order, or its exception propagates; the run is recorded |
| Stock.DrainInStock | commands/stock.py:150-156 | draining empties the queue, looks at every queued listing once, and keeps exactly those whose stock code is "1", "2" or "3", in FIFO order |
| Stock.InStockMembers | commands/stock.py:153-154 | a listing is kept if and only if it was queued and its stock code is available |
| Stock.InStockAppend | commands/stock.py:152-154 | filtering distributes over concatenation, so order is kept |
| Stock.InStockIdempotent | commands/stock.py:153-154 | filtering twice keeps the same listings as filtering once |
| Stock.ComposeMessage | commands/stock.py:158-164 | the `+=` loop builds exactly `StockMessage(stock)` |
| Stock.BlocksAppend | commands/stock.py:160-161 | the product blocks of two lists are the blocks of each, in order |
| Stock.BlocksFirst | commands/stock.py:160-161 | the first kept listing's block comes first |
| Stock.StockMessageCases | commands/stock.py:158-164 | the reply is "No stock available right now :(" exactly when nothing is in stock. Otherwise it is the header followed by one Product/Price/Link block per kept listing, in order |
| Stock.StockCallback | commands/stock.py:135-166 | the callback's replies, spider run and message are exactly `StockReaction(args, chatId, crawl, chat)`, and so is its outcome, including an exception from `reply_text` or `send_message` |
| Stock.StockReactionNoArguments | commands/stock.py:138-140 | with no arguments, the only action is the reply "You need to specify me a product_id!": no spider runs and no result is sent. With arguments and an acknowledgement that returns, the spider runs for the first argument |
| Stock.StockReactionReplyFails | commands/stock.py:142-143 | when `reply_text` raises, that exception propagates and nothing follows the reply: no spider runs and no result is sent |
| Stock.StockReactionReply | commands/stock.py:142-166 | after a crawl, the last of three actions sends to the update's chat, and it is the "no stock" text exactly when no queued listing is available. The callback's outcome is that of `send_message` |
| Stock.StockReplyExample | commands/stock.py:150-161 | listings with stock codes "1" and "0": the reply is the header and the first listing's block only |
| Command.Registry.constructor | commands/command.py:65 | `REGISTERED_HANDLERS` starts empty |
| Command.CreateClass | commands/command.py:19-26 | the new class is appended to the registry exactly when its own body binds a truthy `command`, and is returned either way. The append raises `NameError` when the registry name is not bound yet |
| Command.RegisterAllAppends | commands/command.py:24-25 | registration only appends, so earlier entries stay in place. A class is registered exactly when it was already there, or is a new class whose own body binds a truthy `command` |
| Command.RegisterAllOrder | commands/command.py:25 | registering classes in two batches is registering them in creation order |
| Command.DuplicateTriggersBothRegistered | commands/command.py:24-25 | two classes with the same truthy `command` are both registered, in creation order |
| Command.BaseClassNotRegistered | commands/command.py:29-37 | the base `CommandHandler`, with `command = None`, is not registered, and instantiating it raises the library's `TypeError` for iterating `None` |
| Command.AbstractCallbackNotEnforced | commands/command.py:23-26 | a subclass that binds a command and keeps the abstract `callback` stub is instantiated, and the library handler gets the stub, because `type.__new__` skips `ABCMeta` |
| Command.InheritedCommandNotRegistered | commands/command.py:24 | a subclass that only inherits `command` is not registered, though its lookup of `command` finds the base's |
| Command.SubclassAttributes | commands/command.py:36-37 | every subclass of `CommandHandler` finds `command`, `callback` and `filters` |
| Command.InstantiateSubclass | commands/command.py:39-48 | instantiating a subclass succeeds exactly when the `command` it finds is a string. It then forwards the class's `command`, `callback` and `filters`, with `run_async=False` |
| Command.ImportCommandModule | commands/command.py:29-65 | importing the module creates `CommandHandler` without registering it and binds an empty registry |
| Commands.Dispatcher.AddHandler | commands/__init__.py:33 | `add_handler` appends to the dispatcher's handler list |
| Commands.LoadHandlers | commands/__init__.py:24-34 | the dispatcher gains `Loaded(registry).added` at the end of its list, the outcome is `Loaded(registry).outcome`, and the registry is unchanged |
| Commands.LoadedPrefix | commands/__init__.py:32-33 | one handler per registry entry, in registry order. Loading ends normally exactly when every class can be instantiated; otherwise it stops with the error of the first class that cannot |
| Commands.LoadedStopped | commands/__init__.py:32-33 | nothing after the first failing class is instantiated |
| Commands.LoadedAll | commands/__init__.py:32-33 | when every class can be instantiated, exactly one handler per entry is added, in order; an empty registry adds none |
| Commands.ImportCommandsPackage | commands/__init__.py:11-12 | importing the package leaves exactly `GreetCommand` in the registry |
| Commands.ImportStockModule | commands/stock.py:116-120 | importing `commands.stock` appends `StockCommand` to whatever is registered |
| Commands.PackageHandlers | commands/__init__.py:32-33 | after the package import, loading adds one handler: `greet`, with its callback, no filter and `run_async` off |
| Handler.Defaults.constructor | handler.py:28-51 | each builder has its own default headers dict, created empty once and shared by every call that omits `headers` |
| Handler.OkResponse | handler.py:28-44 | the given dict itself becomes the response's headers, with `Content-Type` set to `application/json` in place. The status code is `code` and the body is the JSON encoding of `body` |
| Handler.ErrorResponse | handler.py:47-63 | the same record as `ok_response`, built on the error builder's own default dict |
| Handler.ResponseHeaders | handler.py:43-44 | after a builder, `Content-Type` is `application/json`, every other header keeps its value and place, and a second call changes nothing more |
| Handler.ConfigureDispatcher | pathfinder.py:38-48 | a fresh dispatcher, whose handlers are `Loaded(registry).added` and whose outcome is that of `load_handlers` |
| Handler.Webhook | handler.py:92-109 | code, body and calls are those of `WebhookRun`. The response uses the default dict of the builder that answers, which gains `Content-Type`, and the registry is unchanged |
| Handler.WebhookGate | handler.py:99-109 | unless the request is a POST with a non-empty body, the reply is 400 "Unsupported method / missing body." and no dispatcher is built. Past the gate, no failure gives that text |
| Handler.WebhookSucceeds | handler.py:99-103 | the reply is 200 exactly when the gate passes and no step raises. It is then "Update handled propperly.", after one dispatcher holding one handler per registered class and one `process_update` |
| Handler.WebhookProcessesAtMostOnce | handler.py:96-109 | the reply is 200 or 400, and `process_update` is called at most once, as the last call |
| Handler.WebhookReportsExceptions | handler.py:105-106 | past the gate, every 400 reports "Exception " + the text of an exception one of the steps raised |
| Handler.SetWebhook | handler.py:70-89 | code, body and calls are those of `SetWebhookRun`. The response uses the default dict of the builder that answers, which gains `Content-Type`, and the other builder's dict stays as it was |
| Handler.SetWebhookSucceeds | handler.py:82-89 | the reply is 200 exactly when the bot is configured, the event has headers and a request context, and `bot.set_webhook(url)` returns true. Any other reply is 400 |
| Handler.SetWebhookReportsExceptions | handler.py:85-89 | every 400 is "Failed to set webhook." or "Exception: " + the text of an exception that was raised |
| Handler.SetWebhookExample | handler.py:77-80 | with Host `example.com` and stage `prod`, the URL registered is `https://example.com/prod` |

## Left out

- **Scrapy.** HTTP fetching, XPath evaluation, the crawler runner and its user agent are not modelled. `parse` receives the product cards (with the link found for each `data-id`) and the two headers as a `Page`. The scheduling of follow-up requests across a whole crawl is also not modelled; one `parse` call is, and a crawl's result is given as a `Crawl`.
- Header bytes are modelled as characters. `int()` accepts ASCII digits only, not every Unicode decimal digit.
- **Crochet and Twisted.** The reactor thread and the `@wait_for(10)` timeout are not modelled. A timed-out or failed crawl is a `CrawlFailed` carrying its exception.
- `StockCommand.callback`'s `for spider in [PccomponentesSpider]` loops over a one-element list, so it is written straight-line.
- **Telegram's library.** Command matching, `Update.de_json`, `Dispatcher.process_update`, `reply_text`, `send_message` and `bot.set_webhook` are not modelled. Whether each returns or raises is an input (`Services`, `Chat`), and the requests made are recorded as `Action`s and `Call`s.
- **JSON.** `json.dumps` and `json.loads` are not modelled. The response body is the uninterpreted `JsonDumps(text)`, and the callers only ever pass strings.
- Default arguments: Dafny has none. Every caller in `handler.py` omits `code` and `headers`, and the model passes 200 or 400 and the shared default dict explicitly. The default bodies ("ok", "Oops... Something went wrong!") are never used by a caller, so they are not modelled.
- `pathfinder.configure_bot`: the environment lookup is not modelled. Its result, a bot or `NotImplementedError`, is the `Services.bot` outcome.
- `commands/greet.py`: only its class statement (`command = 'greet'`) is modelled; its reply is not.
- Logging in every file is not modelled.
- Inheritance is modelled as a single base chain of the project's own classes. The library base `telegram.ext.CommandHandler` and multiple inheritance are not part of this model.
- `Stock.KeyError`: the message is the key in single quotes, which is `repr` for keys without quote characters; other keys' quoting is not modelled.
- `Command.Instantiate`: the library's checks on a string `command` (lower-casing and the bot-command pattern, which raises `ValueError`) are not modelled. A `command` given as a list of strings is not modelled either; every non-string `command` raises `TypeError`.
- `Text.ParseInt`: the `ValueError` text writes the header as `b'…'` around its characters, which is the bytes `repr` only for printable ASCII without quotes or backslashes.
- `Handler.Webhook` and `Handler.SetWebhook`: they require the two default dicts to be distinct objects, as `Handler.Defaults.constructor` guarantees.
