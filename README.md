# Design-pattern demo: wallet, payment factory, analytics logger and content loader

This project models the behavioural core of a small browser demo of creational
design patterns, and proves properties of that model. It has three parts.

- **Payments** (`payments.dfy`, from `src/creational/factory/definition.js`).
  `Wallet` is a class with a cash balance and a map of crypto balances. Its
  deposit and withdrawal methods are proved against the pure functions
  `Deposit` and `Withdraw`, which act on a `Ledger` snapshot. The three payment
  handlers (cash, PayPal and crypto) are one function, `Pay`. `ProcessPayment`
  calls the wallet's methods in the handler's order and is proved equal to
  `Pay`. `PaymentFactory` is a class holding the tag-to-handler registry.
  `WalletSlot` stands for the static `Wallet.#instance` field.
  A thrown `Error` becomes an `Err`/`Fail` value. `Message` gives the text
  each error carries.
- **Analytics** (`analytics.dfy`, from `src/creational/singleton/definition.js`).
  `AnalyticalLogger` is a class whose fields are the logger's private fields.
  It also holds the browser's timer table (`intervals`, `nextTimer`), the number
  of uploads suspended at their delay (`pendingUploads`), a record of every
  listener call (`notified`) and the count of listener errors that were caught
  (`callbackErrors`). Each method is proved against a transition function on
  the `Logger` snapshot. The lemmas about several steps are stated on those
  functions: the debounce, the 4000/3000/2000/1000 countdown, the upload on
  the fifth tick, and the batch that is uploaded.
  A firing of the 1000 ms interval is the step `Tick`. The upload is split at
  its `await`: `UploadEvents` runs inside the tick, and `FinishUpload` runs when
  the 2000 ms delay ends. `LoggerSlot` stands for the static
  `AnalyticalLogger.instance`.
- **ContentLoader** (`content_loader.dfy`, from `src/mainContent/script.js`).
  This is the string and path logic of `loadSnippet` and `loadExample`:
  - the snippet-path normalisation;
  - the `looksLikePath` test;
  - the candidate URL list, built by conditional pushes;
  - its order-preserving de-duplication (`[...new Set(...)]`);
  - the loop that returns the first candidate that loads.

  Whether a URL loads is given as the parameter `fetchable`.
- `wrappers.dfy` holds `Option`, `Result` and `Outcome`.

Some points where the model follows the code exactly:
- A crypto handler created without `cryptoType` looks up the balance of
  `undefined`. That balance is 0, so a positive payment fails with
  "Insufficient undefined balance in wallet".
- The crypto receipt's method is `Crypto (<email>)`. The demo never passes an
  email to the crypto handler, so it reads `Crypto (undefined)`.
- An event logged during the upload delay is uploaded with the current batch,
  because the cache is copied and cleared only after the delay
  (definition.js lines 100-101). `LateEventJoinsUpload` states this, and also
  that the countdown this event restarted later finds an empty cache and
  reports `idle`.

## Model

| member | source | states |
|---|---|---|
| Payments.Deposit | src/creational/factory/definition.js:119-125 | fails with the deposit error exactly when the amount is not positive; otherwise the balance of the named denomination grows by exactly the amount, every other balance is unchanged, and no balance becomes negative; the crypto map gains at most the deposited currency's key, and a cash deposit leaves it as it was |
| Payments.Withdraw | src/creational/factory/definition.js:127-136 | fails exactly when the amount is not positive or exceeds the balance, where a currency never deposited counts as 0; the error checked first is the non-positive one; on success only the named balance changes, it drops by the amount and stays non-negative; the crypto map keeps exactly its keys, and a cash withdrawal leaves it as it was |
| Payments.WalletMessages | src/creational/factory/definition.js:98-136 | the texts the wallet throws: "Deposit amount must be positive", "Withdrawal amount must be positive", "Insufficient cash balance" and "Insufficient <code> balance", each for the inputs that reach it |
| Payments.WithdrawUndoesDeposit | src/creational/factory/definition.js:98-136 | on a solvent wallet, withdrawing what was just deposited succeeds and restores every balance, and restores the ledger itself unless the deposit opened a new currency |
| Payments.Wallet.constructor | src/creational/factory/definition.js:88-89 | a new wallet holds 0 cash and no currencies |
| Payments.Wallet.DepositCash | src/creational/factory/definition.js:98-103 | throws exactly when `Deposit` on cash fails, and then leaves the wallet unchanged; otherwise the wallet becomes the deposited ledger; the no-negative-balance invariant holds |
| Payments.Wallet.WithdrawCash | src/creational/factory/definition.js:105-113 | as `Withdraw` on cash: the result and the new state, with the wallet unchanged on failure |
| Payments.Wallet.DepositCrypto | src/creational/factory/definition.js:119-125 | as `Deposit` on the currency: the result and the new state |
| Payments.Wallet.WithdrawCrypto | src/creational/factory/definition.js:127-136 | as `Withdraw` on the currency: the result and the new state |
| Payments.Wallet.CashBalance | src/creational/factory/definition.js:115-117 | the cash balance, non-negative in a valid wallet |
| Payments.Wallet.CryptoBalance | src/creational/factory/definition.js:138-140 | 0 for a currency never deposited, else its stored balance; non-negative in a valid wallet; reads the wallet without changing it |
| Payments.Wallet.CryptoBalances | src/creational/factory/definition.js:142-144 | the map agrees with `CryptoBalance` on every key, and every code outside it has balance 0 |
| Payments.Wallet.Summary | src/creational/factory/definition.js:146-151 | the summary agrees with both getters, and it is solvent exactly when the wallet's invariant holds |
| Payments.WalletSlot.GetInstance | src/creational/factory/definition.js:91-96 | creates a new empty wallet only when there is none; every later call returns the same instance |
| Payments.Shown | src/creational/factory/definition.js:45-60 | a present field renders as its value, an absent one as `undefined`, as in a template literal |
| Payments.ReceiptFor | src/creational/factory/definition.js:29-64 | the receipt carries the amount and remaining balance given; cash and crypto receipts name the payer, PayPal ones read `<name> (email)`; the method is "Cash" exactly for cash, "PayPal" exactly for PayPal, and `Crypto (email)` for crypto |
| Payments.CashHandlerMessage | src/creational/factory/definition.js:24-42 | the cash and PayPal handlers throw "Insufficient cash balance in wallet" when a positive amount exceeds the cash |
| Payments.CryptoHandlerMessage | src/creational/factory/definition.js:54-57 | the crypto handler throws "Insufficient <code> balance in wallet" when a positive amount exceeds that currency's balance, and "Insufficient undefined balance in wallet" when it has no `cryptoType` |
| Payments.Pay | src/creational/factory/definition.js:23-66 | a payment succeeds exactly when the handler's denomination is known and 0 < amount <= its balance; insufficient funds give the handler's "in wallet" error naming the denomination; a non-positive amount gives the withdrawal error; on success the debited balance drops by the amount, the receipt is the handler's receipt (name and method fields included) for the amount, its remaining balance is the new balance, cash and PayPal leave the crypto map untouched, crypto leaves cash untouched, and solvency is kept; the new ledger is exactly the wallet's withdrawal of the amount from the debited balance, so the currency keys stay the same |
| Payments.ProcessPayment | src/creational/factory/definition.js:24-65 | calling the wallet's methods in the handler's order gives `Pay`'s receipt or error, and the new wallet is `Pay`'s ledger, or the old wallet on error |
| Payments.PaymentFactory.RegisterPaymentMethod | src/creational/factory/definition.js:71-73 | the registry maps the tag to the new kind, and re-registering a tag replaces its kind; other tags are unchanged |
| Payments.PaymentFactory.CreatePaymentMethod | src/creational/factory/definition.js:74-80 | succeeds exactly for a registered tag, with the registered kind and the given config; otherwise the unsupported-method error names the tag, with the text "Unsupported payment method: <tag>" |
| Payments.LoadDemo | src/creational/factory/script.js:100-114 | the demo wallet holds cash 500, BTC 87, ETH 7 and LIT 12, and the registry holds CASH, PAYPAL and CRYPTO |
| Analytics.StatusName | src/creational/singleton/definition.js:7-12 | each status has its own name: "idle", "countdown", "uploading" and "uploaded", and no other status has that name |
| Analytics.Initial | src/creational/singleton/definition.js:18-23 | a new logger has an empty cache, no job and no timers, 5000 ms left, no listener and status idle, and it satisfies the invariant |
| Analytics.Notified | src/creational/singleton/definition.js:41-56 | the status always becomes the notified one; the listener, if any, gets exactly one call; a throwing listener only increments the error count; nothing else changes; the invariant is kept |
| Analytics.Registered | src/creational/singleton/definition.js:33-39 | a non-function changes nothing; a function replaces the listener, sets idle and is called once with `(idle, {})`, and a throwing one adds one caught error; nothing else changes (cache, timers, countdown, suspended uploads) |
| Analytics.CountdownStarted | src/creational/singleton/definition.js:66-73 | the countdown restarts at 5000 ms; the old job's interval is cleared, and a new, previously unused interval becomes the job; the cache, listener, status, notifications and uploads are untouched |
| Analytics.Logged | src/creational/singleton/definition.js:58-64 | the event is appended at the end of the cache; the countdown restarts at 5000; exactly one interval remains, the new job; listener, status and error count are unchanged |
| Analytics.Ticked | src/creational/singleton/definition.js:73-82 | a tick subtracts 1000 ms; while time is left it notifies countdown with the new value; at 0 or below it clears the interval and job and begins the upload; the cache is unchanged; the invariant is kept |
| Analytics.UploadBegun | src/creational/singleton/definition.js:85-97 | an empty cache notifies idle with "No events to upload"; otherwise it notifies uploading with the cache length and suspends one upload, and nothing else changes; the cache and timers are unchanged in both cases |
| Analytics.UploadFinished | src/creational/singleton/definition.js:97-104 | after the delay, the whole cache as it is then is uploaded: it is reported with its length, in log order, and the cache becomes empty; apart from the status, the notification, a caught error and the resumed upload, nothing else changes |
| Analytics.CountdownPhase | src/creational/singleton/definition.js:73-82 | the first four ticks after a restart only count down: after tick k the time left is 5000 - 1000k and the listener has heard exactly those values |
| Analytics.FifthTickUploads | src/creational/singleton/definition.js:74-78 | the fifth tick after a restart clears the job and begins the upload |
| Analytics.LoggedAllBuffers | src/creational/singleton/definition.js:58-73 | logging a run of events appends them in order and leaves exactly one countdown, at 5000 ms |
| Analytics.DebouncedUpload | src/creational/singleton/definition.js:58-104 | a burst of events, then five quiet ticks, then the delay: the listener hears 4000..1000, then uploading with the batch size, then uploaded with the whole batch in log order; the cache ends empty |
| Analytics.LateEventJoinsUpload | src/creational/singleton/definition.js:97-103 | an event logged during the delay is uploaded in the same batch, and the countdown it restarted ends in "No events to upload" |
| Analytics.ThrowingListenerIsHarmless | src/creational/singleton/definition.js:45-55 | a throwing listener gets the same calls, and the logger makes the same transition, as with a listener that does not throw; only the error count differs |
| Analytics.AnalyticalLogger.constructor | src/creational/singleton/definition.js:18-23 | the new object's state is `Initial()` |
| Analytics.AnalyticalLogger.InvokeCallback | src/creational/singleton/definition.js:41-56 | the new state is `Notified` of the old one |
| Analytics.AnalyticalLogger.RegisterStatusListener | src/creational/singleton/definition.js:33-39 | the new state is `Registered` of the old one |
| Analytics.AnalyticalLogger.LogEvent | src/creational/singleton/definition.js:58-64 | the new state is `Logged` of the old one, for the event built from the type, the data and the timestamp |
| Analytics.AnalyticalLogger.StartCountDown | src/creational/singleton/definition.js:66-83 | the new state is `CountdownStarted` of the old one |
| Analytics.AnalyticalLogger.Tick | src/creational/singleton/definition.js:73-82 | the new state is `Ticked` of the old one |
| Analytics.AnalyticalLogger.UploadEvents | src/creational/singleton/definition.js:85-91 | the new state is `UploadBegun` of the old one |
| Analytics.AnalyticalLogger.FinishUpload | src/creational/singleton/definition.js:97-103 | the new state is `UploadFinished` of the old one |
| Analytics.LoggerSlot.Construct | src/creational/singleton/definition.js:26-31 | the first construction makes a fresh logger in its initial state; every later one returns that same instance |
| ContentLoader.StripPrefix | src/mainContent/script.js:27 | removes one leading occurrence of the prefix, and leaves a string without it unchanged |
| ContentLoader.SkipLeading | src/mainContent/script.js:59 | the index reached is the first one from the start position that is not white space, or the end |
| ContentLoader.SkipTrailing | src/mainContent/script.js:59 | the end reached drops exactly the white space at the back of the slice |
| ContentLoader.Trim | src/mainContent/script.js:59 | the result is a slice of the input with only white space outside it; it neither starts nor ends with JavaScript white space; an all-space string trims to empty |
| ContentLoader.NormalizeSnippetPath | src/mainContent/script.js:27 | removes a leading `src/`, and then one leading `/` from what remains |
| ContentLoader.SnippetPathNormalization | src/mainContent/script.js:26-27 | `src/a` gives `a` with one leading `/` of `a` removed, `/a` gives `a`, and `/src/a` keeps its `src/` |
| ContentLoader.LoadSnippet | src/mainContent/script.js:23-53 | a truthy `snippet` is returned as it is; otherwise a truthy `snippetPath` is fetched from its normalised form, with `../` in front exactly when the page path contains `/mainContent/`; otherwise the "No snippet available" text |
| ContentLoader.LooksLikePath | src/mainContent/script.js:60 | a string looks like a path exactly when it ends in `.htm` or `.html` (ASCII case-insensitive) or contains `/`; the three prefix tests imply the `/` test |
| ContentLoader.WithoutSrc | src/mainContent/script.js:73-74 | `/src/x` and `src/x` give `x`; any other `/x` gives `x`; any other string is unchanged |
| ContentLoader.Candidates | src/mainContent/script.js:75-81 | two to six candidates; `s` comes first, and comes twice for an http(s) URL; `withoutSrc` and `./` + `withoutSrc` are always present; `../` + `s` and `../` + `withoutSrc` are present when they do not start with `..` |
| ContentLoader.PushedAfter | src/mainContent/script.js:77-81 | the pushes after the URL test keep what was already in the list, add `s` right after it, and add at most four more items, each of one of the candidate forms |
| ContentLoader.CandidateForms | src/mainContent/script.js:75-81 | every candidate is `s`, `withoutSrc`, `../` + either of them, or `./` + `withoutSrc` |
| ContentLoader.ParentCandidate | src/mainContent/script.js:79 | `../` + `s` is a candidate exactly when `s` does not start with `..` |
| ContentLoader.BuildCandidates | src/mainContent/script.js:72-81 | the conditional pushes build exactly `Candidates(s)` |
| ContentLoader.Unique | src/mainContent/script.js:82 | the de-duplicated list has the same elements as its input and no duplicates |
| ContentLoader.UniqueKeepsFirstOccurrenceOrder | src/mainContent/script.js:82 | the de-duplicated list is ordered by each element's first occurrence in the input |
| ContentLoader.UniqueKeepsHead | src/mainContent/script.js:82 | the de-duplicated list starts with the input's first element |
| ContentLoader.ExampleUrlTriedFirst | src/mainContent/script.js:76-82 | the URLs tried start with `s` and hold it only once, although an http(s) URL is pushed twice |
| ContentLoader.Deduplicate | src/mainContent/script.js:82 | inserting element by element, skipping elements already present, gives `Unique` of the list |
| ContentLoader.FirstFetchable | src/mainContent/script.js:85-118 | the index found is the first one from the starting position whose URL loads; none is found exactly when no URL from there loads |
| ContentLoader.TryCandidates | src/mainContent/script.js:85-118 | the loop returns the first URL of the de-duplicated list that loads, and nothing when none does |
| ContentLoader.JoinAppend | src/mainContent/script.js:120 | `join` of a list with one more URL is the join of the list, the separator, then that URL, so the URLs appear in list order |
| ContentLoader.JoinContains | src/mainContent/script.js:120 | every URL of the list occurs in its `join` |
| ContentLoader.UnableToLoad | src/mainContent/script.js:120 | the text starts with "// Unable to load example (tried: " and ends with ")", and every URL tried occurs in it; for no URL it is "(tried: )", for one URL it lists exactly that URL |
| ContentLoader.LoadExample | src/mainContent/script.js:56-120 | a missing or empty example gives "No example specified"; a trimmed value that does not look like a path is returned inline; otherwise the first loading URL of the de-duplicated candidates, or the "Unable to load example (tried: ...)" text listing all of them |

## Left out

- DOM access, `fetch`, `DOMParser`, the iframe and the wait for its `load` event (src/mainContent/script.js lines 34-51 and 86-117). These are browser I/O. Whether a candidate URL loads is the parameter `fetchable`. `loadSnippet`'s fetch is modelled only up to the URL it requests (`FetchSnippet`).
- The HTML-tag regular expression and the script stripping for inline examples (src/mainContent/script.js lines 64-67). `Inline` covers both the `{ html }` and the `{ text }` result.
- `getQuery`, `renderList` and `renderScreen`: query-string reading and DOM rendering.
- `String(data.example)` coercion: the example field is modelled as a string.
- Real timers, Promises and `new Date().toISOString()`. Timer firings and the end of the upload delay are explicit steps, and the timestamp is a parameter of `LogEvent`. `pendingUploads` lets a `FinishUpload` step happen at any point after its upload began, so the model admits interleavings that real timing rules out. Every proved property holds for all of them.
- `console.log` and `console.error` output. A receipt is the record `Receipt`, not the printed text, and a caught listener error is only counted.
- The listener's own behaviour: a listener is an identity and whether it throws.
- `parseFloat`, decimal amounts and the string-to-number coercion of the amount input. Amounts are integers.
- Payments.Wallet.CryptoBalances: returns the map as a value. The JavaScript returns the live `Map`, through which a caller could change the wallet; that aliasing is not modelled.
- The static private fields `Wallet.#instance`, `PaymentFactory.#registry` and `AnalyticalLogger.instance` are explicit objects (`WalletSlot`, the `PaymentFactory` object and `LoggerSlot`) that a caller passes around.
- `BasePaymentMethod.processPayment`, which only throws "must be implemented": every handler that a registered kind can create overrides it.
- The demo scripts `src/creational/factory/script.js`, `src/creational/singleton/script.js` and `src/script.js` (event wiring, modals, alerts, status text) and `src/dataHolder/creationalContent.js` (static text). Only the initial wallet of `loadWallet` and the registry of `addPaymentMethodsInRegistry` are modelled, as `LoadDemo`. `CashScenario`, `CryptoScenario` and `ClickScenario` follow the demo's buttons.
