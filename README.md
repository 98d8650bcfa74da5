# Todo list: server store and client reducer

A model of a two-tier todo-list application written in Rust.

The server (`src/main.rs`) keeps one list of strings behind a mutex. Four HTTP handlers work on it:

- `add_data` appends the request body with its `"` characters deleted.
- `remove_data` deletes the first item equal to the quote-free body.
- `clear_data` empties the list.
- `get_data` reads it.

Every handler answers with the list as it stands afterwards. The list starts as `["This", "Is", "Working!"]`.

The browser client (`app/src/lib.rs`) is a message-driven reducer over a model with three fields: `items`, `new_value` and `error`. User messages (`Save`, `Clear`, `Remove`, `TextEntered`) edit the model and start server requests. Completion messages carry the server's answer back: on success they replace `items`, on failure they set `error`.

Files:

- `option.dfy` — module `Optional`, the `Option` datatype.
- `server.dfy` — module `TodoServer`. It holds quote stripping (`StripQuotes`), the first-match scan (`Position`, specified by `IndexOf`), first-match removal (`RemoveFirst`) and the class `Store` with one atomic method per handler.
- `client.dfy` — module `TodoClient`. The reducer is a pure step function `Next` over `ModelState`. The class `Model` has an `Update` method that assigns fields branch by branch and is proved against `Next`. `Init` gives the starting model. `Run` folds `Next` over a sequence of messages.

The server's effects on the HTTP layer become method results. The client's `orders.perform_cmd(...)` and `orders.skip()` become a returned `Orders` value. That value holds the request started (`FetchAll`, `AddItem`, `RemoveItem`, `ClearAll`) and whether rendering is skipped. `Completion` names the message each request's answer comes back as.

## Model

| member | source | states |
|---|---|---|
| `TodoServer.StripQuotes` | src/main.rs:14 | the stripped body contains no `"` and is no longer than the body |
| `TodoServer.StripQuotesFixesQuoteFree` | src/main.rs:14-28 | a body without `"` is stored (line 14) and compared (line 28) exactly as sent |
| `TodoServer.StripQuotesIdempotent` | src/main.rs:14 | stripping an already stripped value changes nothing |
| `TodoServer.StripQuotesAppend` | src/main.rs:14 | stripping distributes over concatenation, so each quote is deleted where it stands and nothing else moves |
| `TodoServer.StripQuotesKeepsOthers` | src/main.rs:14 | every character other than `"` keeps its number of occurrences |
| `TodoServer.QuotedBodyStoredBare` | src/main.rs:14 | the body `"hello"` with its quotes is stored as `hello` |
| `TodoServer.IndexOf` | src/main.rs:29 | the index found holds the value and no earlier index does: the least match |
| `TodoServer.Position` | src/main.rs:29 | the linear scan yields the least matching index when the value is present and nothing when it is absent |
| `TodoServer.RemoveAt` | src/main.rs:30 | removing one index shortens the list by exactly one |
| `TodoServer.RemoveFirst` | src/main.rs:29-30 | the list without its least index holding the value: one item shorter, with every item before that index kept |
| `TodoServer.RemoveFirstShape` | src/main.rs:28-30 | after removing the first match, the items before it are unchanged and the items after it shift down one place in order |
| `TodoServer.RemoveFirstMultiset` | src/main.rs:28-30 | removing the first match takes out exactly one occurrence of the value and changes no other count |
| `TodoServer.RemoveFirstOfSingle` | src/main.rs:29-30 | a value present once is gone after removal |
| `TodoServer.RemoveFirstOfDuplicate` | src/main.rs:29-30 | of a value present twice, exactly one occurrence remains after removal |
| `TodoServer.Store.constructor` | src/main.rs:47-53 | the store starts with the seed list `["This", "Is", "Working!"]` |
| `TodoServer.Store.Add` | src/main.rs:12-15 | the new list is the old list followed by the stripped value, and the response is the new list |
| `TodoServer.Store.Clear` | src/main.rs:19-22 | the list is empty whatever it held, and the response is the empty list |
| `TodoServer.Store.Remove` | src/main.rs:26-31 | when the stripped value occurs, the list loses its first occurrence and the response is the new list; when it does not, the answer is `NotFound` and the list is unchanged |
| `TodoServer.Store.Get` | src/main.rs:35-37 | the response is the current list and nothing is modified |
| `TodoServer.SeedSession` | src/main.rs:11-37 | from the seed, deleting `Is` gives `["This", "Working!"]`, posting `Newest` appends it, clearing gives `[]` and a read then gives `[]` |
| `TodoClient.Completion` | app/src/lib.rs:28-38 | each started request (also `init`'s fetch at line 155) comes back as the completion message of its own kind, carrying the answer unchanged |
| `TodoClient.Receive` | app/src/lib.rs:41-56 | a successful answer replaces `items` only; a failed answer sets `error` only |
| `TodoClient.Next` | app/src/lib.rs:21-57 | one step never clears an error; it sets one only on a failed answer; it changes `items` only to the list of a successful answer, and a successful answer always replaces `items` with its list; it changes `new_value` only on `Save` or `TextEntered`; it starts a request exactly on `Save`, `Clear` and `Remove`; it skips rendering exactly on `Save` and `Clear` |
| `TodoClient.Model.constructor` | app/src/lib.rs:3-8 | the default model has no items, an empty input and no error |
| `TodoClient.Model.Update` | app/src/lib.rs:21-57 | the in-place update agrees with `Next`. `TextEntered` sets `new_value` only. `Save` sends the previous `new_value` and empties it. `Clear` and `Remove` change nothing and only send their request. `Remove` carries its argument unchanged. A successful answer replaces `items` only. A failed answer sets `error` only. |
| `TodoClient.Model.ReceiveInPlace` | app/src/lib.rs:41-56 | a completion's answer is applied to the model as `Receive` states |
| `TodoClient.Init` | app/src/lib.rs:154-157 | the first model is the default one, and the first order fetches the server's list |
| `TodoClient.RunSnoc` | app/src/lib.rs:21-57 | handling one more message after a run is one more reducer step |
| `TodoClient.RunItemsAreLastAnswer` | app/src/lib.rs:41-56 | after any sequence of messages, the shown items are those of the last successful answer, or the initial items if there was none |
| `TodoClient.RunKeepsError` | app/src/lib.rs:43-55 | once an error is set, no sequence of messages clears it |
| `TodoClient.AnsweredRequestShowsList` | app/src/lib.rs:28-56 | a request started by any step, once answered with a list, makes that list the shown items and changes nothing else |
| `TodoClient.EnteredTextIsSaved` | app/src/lib.rs:25-40 | typing a text then saving sends exactly that text in the add request and leaves the input empty |

## Left out

- `TodoServer.Store.Remove`: when the stripped value is absent, the source unwraps `None` and panics while holding the lock. The model answers `NotFound` and leaves the list unchanged instead.
- Mutex poisoning: that panic poisons the mutex in the source, so every later `lock().unwrap()` panics too. The model does not capture this.
- Concurrency: the mutex only serialises the handlers, so each handler is one atomic method. Locking itself is not modelled. The property that concurrent appends lose no update follows from this atomicity and is not stated separately.
- HTTP plumbing: actix routing, JSON serialisation of responses, the bind address, and `page`/static file serving (src/main.rs:40-67). These are framework I/O.
- Request bodies are taken as already-decoded text. The server deletes `"` characters and decodes no JSON escapes, and the model does the same.
- Client network calls `get_todo_items`, `add_todo_item`, `remove_todo_item` and `remove_todo_items` (app/src/lib.rs:112-152). They appear only as the `Request` values in `Orders`, and their answers as `FetchResult`.
- `fetch::Error` and its `{:?}` rendering are foreign. A failed answer carries only the text to show, and the model keeps that text as the error.
- Rendering: `view`, the DOM, styles and the wasm `start` entry point (app/src/lib.rs:60-110, 159-162).
