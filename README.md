# Gift-card batch automation, modelled in Dafny

This project models the core of a Shopify app that issues gift cards in
bulk. It covers the following pieces:

- **Dashboard form.** A merchant fills in a batch request (card value,
  number of cards, code length, optional expiry, prefix, recipient list and
  note). The form validates the fields and checks the plan limit before it
  posts the request.
- **Store action.** The server validates the request again, stores a
  pending batch and queues a `CreateGiftCards` job.
- **`CreateGiftCards` job.** It marks the batch in progress and generates
  one random upper-case hex code per card, after an optional prefix. Each
  card is created through the Shopify GraphQL API, with up to three attempts
  when Shopify throttles or the call crashes. The job writes one card row
  per card and rolls the counts up into a final batch status
  (`success`, `partial_failed` or `failed`). Finally it exports the rows to a
  spreadsheet and mails it to the valid recipients.
- **Batch list and its server action.** The list shows the user's batches
  ten to a page, newest first, with a three-day download countdown and a
  status badge. Listing a batch whose expiry date has passed queues an
  expiry sweep, which marks the batch's unused cards expired.
- **`orders/paid` webhook.** It finds the gift card an order was paid with
  and copies that card's remaining balance onto the matching card rows. A
  spent card becomes `used`.
- **Plan subscription.** It stores one of three plan names per user.

Each source file of the core is one Dafny module. Code that updates state
step by step (jobs, controller actions, form handlers) is written as
methods. These methods work on a `Database` object (batches, cards, plan
rows, job queue) or on a page's state object. Each method is proved against
pure functions that state the new state, and the lemmas prove the
properties of those functions.

The model's conventions are as follows:

- Money is integer cents, and times are integer milliseconds.
- Anything the code cannot see becomes a parameter. That covers HTTP
  replies, `random_bytes`, `json_encode`, `strip_tags`, the e-mail
  validators, JavaScript `Number`, the clock and file existence.

## Model

| member | source | states |
|---|---|---|
| Text.Upper | app/Jobs/CreateGiftCards.php:147 | `strtoupper`: same length, every character ASCII-upper-cased in place |
| Text.Lower | app/Http/Controllers/PlanController.php:23 | `strtolower`: same length, every character ASCII-lower-cased in place |
| Text.UcFirst | app/Exports/GiftCardsExport.php:25 | `ucfirst`: first character upper-cased, the rest unchanged |
| Text.NatToStringInjective | app/Jobs/CreateGiftCards.php:155 | different ids print as different decimal strings |
| Text.ParseNatToString | app/Jobs/CreateGiftCards.php:155 | printing a number in decimal and parsing it back gives the number |
| Text.Bin2Hex | app/Jobs/CreateGiftCards.php:149 | `bin2hex`: two lower-case hex digits per byte |
| Text.HexRoundTrip | app/Jobs/CreateGiftCards.php:149 | hex encoding loses nothing: decoding gives the bytes back |
| Text.Split | resources/js/Pages/Embedded/Dashboard.jsx:48 | `split(",")`: at least one piece, and no piece holds the separator |
| Text.JoinSplit | resources/js/Pages/Embedded/Dashboard.jsx:48 | joining the pieces with the separator restores the input |
| Text.Trim | resources/js/Pages/Embedded/Dashboard.jsx:47-48 | `trim()`: the result is a contiguous piece of the input with only whitespace before and after it |
| Text.TrimEmptyIffBlank | resources/js/Pages/Embedded/Dashboard.jsx:47 | `trim()` gives "" exactly when every character is JavaScript whitespace |
| Text.TrimShape | resources/js/Pages/Embedded/Dashboard.jsx:101 | a trimmed string neither starts nor ends with whitespace |
| Text.TrimAll | resources/js/Pages/Embedded/Dashboard.jsx:48 | `.map(e => e.trim())` keeps the length and trims each entry |
| Records.CardsOf | app/Jobs/CreateGiftCards.php:158 | `where('batch_id', id)`: only that batch's rows, and every row of the batch is among them |
| Records.CountStatusAppend | app/Jobs/CreateGiftCards.php:105-120 | status counts add up over concatenated card lists |
| Records.CountStatusAll | app/Jobs/CreateGiftCards.php:129 | a status count equals the list length iff every card has that status |
| Records.CountStatusNone | app/Jobs/CreateGiftCards.php:130 | a status count is 0 iff no card has that status |
| Records.CardsOfAppend | app/Jobs/CreateGiftCards.php:158-160 | appending rows of one batch appends exactly them to that batch's cards |
| Records.Database.Find | app/Jobs/MarkExpiredGiftCardsJob.php:26 | `find($id)` returns a row iff the id exists, and the row has that id |
| Records.Database.SetStatus | app/Jobs/CreateGiftCards.php:134-137 | `update(['status' => …])` changes that batch's status and nothing else |
| ShopifyGiftCardService.StripShopSuffixes | app/Providers/ShopifyGiftCardService.php:21 | the result is a prefix of the name that no longer ends in ".myshopify.com" |
| ShopifyGiftCardService.NormalizeStore | app/Providers/ShopifyGiftCardService.php:21 | the clean-up never lengthens the name, and a name ending in ".myshopify.com" still ends in it |
| ShopifyGiftCardService.CollapseSuffixIdempotent | app/Providers/ShopifyGiftCardService.php:21 | collapsing trailing ".myshopify.com" runs twice is collapsing them once |
| ShopifyGiftCardService.NormalizeStoreIdempotent | app/Providers/ShopifyGiftCardService.php:21 | the store-name clean-up, `$` matching before a final newline included, is idempotent |
| ShopifyGiftCardService.NormalizeStoreKeepsPlainNames | app/Providers/ShopifyGiftCardService.php:21 | a name without the suffix is left unchanged |
| ShopifyGiftCardService.NormalizeStoreCollapses | app/Providers/ShopifyGiftCardService.php:21 | "shop" plus one or more ".myshopify.com" becomes "shop.myshopify.com" |
| ShopifyGiftCardService.ApiUrl | app/Providers/ShopifyGiftCardService.php:23 | the endpoint is "https://", the store, then the versioned GraphQL path |
| ShopifyGiftCardService.ApiUrlInjective | app/Providers/ShopifyGiftCardService.php:23 | different stores get different endpoints |
| ShopifyGiftCardService.Classify | app/Providers/ShopifyGiftCardService.php:88-145 | HTTP ≥ 400 gives "HTTP Request Failed: status"; user errors are passed through; a caught Exception gives its message; no errors iff the call succeeded without user errors; ids and codes only on success; only a non-Exception Throwable escapes |
| ShopifyGiftCardService.TopLevelErrorsIgnored | app/Providers/ShopifyGiftCardService.php:102-133 | a 2xx reply with only top-level GraphQL `errors` counts as success with no id and no code |
| ShopifyGiftCardService.PhpEmpty | app/Providers/ShopifyGiftCardService.php:66-74 | PHP `empty()` on a string: only null and strings of at most one character can be empty, and a one-character string other than "0" is not |
| ShopifyGiftCardService.FormatCents | app/Providers/ShopifyGiftCardService.php:63 | `(string)$value` of a two-decimal amount: digits, a point, then exactly two digits |
| ShopifyGiftCardService.FormatCentsRoundTrip | app/Providers/ShopifyGiftCardService.php:63 | the whole units before the point and the two digits after it read back as the amount in cents |
| ShopifyGiftCardService.GiftCardService.constructor | app/Providers/ShopifyGiftCardService.php:18-26 | the client holds the normalised store's endpoint and the user's token |
| ShopifyGiftCardService.GiftCardService.CreateGiftCard | app/Providers/ShopifyGiftCardService.php:37-146 | the input holds `initialValue`, plus code, note and expiresOn exactly when they are not PHP-empty; the result is the reply's classification |
| GiftCardsExport.Collection | app/Exports/GiftCardsExport.php:18-30 | one row per card, in order: code and id copied, status `ucfirst`-ed, a missing balance as "N/A", a falsy error message as "" and any other stripped of tags |
| GiftCardsExport.CollectionAppend | app/Exports/GiftCardsExport.php:21-29 | exporting two card lists one after the other gives the export of their concatenation |
| GiftCardsExport.StatusLabels | app/Exports/GiftCardsExport.php:25 | the four card statuses export as Created, Failed, Used, Expired |
| GiftCardsExport.RowsMatchHeadings | app/Exports/GiftCardsExport.php:32-41 | every row has exactly as many cells as the five headings |
| CreateGiftCards.GenerateCode | app/Jobs/CreateGiftCards.php:145-151 | the code starts with the upper-cased prefix and is as long as the prefix plus the random part's length |
| CreateGiftCards.GenerateCodeShape | app/Jobs/CreateGiftCards.php:145-151 | the code is the upper-cased prefix followed by upper-case hex digits; its length, counted in characters, is the requested length, or the prefix length plus one when the prefix is at least as long |
| CreateGiftCards.DistinctDrawsGiveDistinctCodes | app/Jobs/CreateGiftCards.php:149 | for an even suffix length, different random draws give different codes |
| CreateGiftCards.IsRateLimitError | app/Jobs/CreateGiftCards.php:184-193 | the loop answers true iff some structured error's message contains "throttled" in any case |
| CreateGiftCards.PlainErrorsNotRateLimited | app/Jobs/CreateGiftCards.php:186-188 | plain string errors (HTTP failures, caught exceptions) never count as throttling |
| CreateGiftCards.Retry | app/Jobs/CreateGiftCards.php:60-93 | between 1 and 3 calls per card |
| CreateGiftCards.RetrySettles | app/Jobs/CreateGiftCards.php:60-93 | every call before the last was throttled or raised; the response kept is the last call's, or the raised message after the third raise; a settled reply before the third call is not throttled |
| CreateGiftCards.IssueWithRetry | app/Jobs/CreateGiftCards.php:60-93 | the retry loop ends with the response and call count of `Retry` |
| CreateGiftCards.HttpErrorNotRetried | app/Jobs/CreateGiftCards.php:78-84 | an HTTP error status settles the card after one call |
| CreateGiftCards.CaughtExceptionNotRetried | app/Jobs/CreateGiftCards.php:78-84 | an Exception the service caught settles the card after one call |
| CreateGiftCards.ThrottledThrice | app/Jobs/CreateGiftCards.php:64-82 | three throttled replies use all three calls and leave a failing response |
| CreateGiftCards.CrashedThrice | app/Jobs/CreateGiftCards.php:85-92 | three crashes use all three calls and record the last crash message |
| CreateGiftCards.Record | app/Jobs/CreateGiftCards.php:96-121 | the row is failed iff the response has errors: a failed row keeps the manual code and the encoded errors; a created row takes Shopify's code (or the manual one) and id; both carry the card value as balance |
| CreateGiftCards.BatchCards | app/Jobs/CreateGiftCards.php:49-125 | one row per card; every row belongs to the batch, carries its value and is created or failed |
| CreateGiftCards.BatchCardsAt | app/Jobs/CreateGiftCards.php:49-125 | row i of a run is the record written for card i from its code and its settled response |
| CreateGiftCards.CountsAddUp | app/Jobs/CreateGiftCards.php:105-120 | success and failure counts add up to the number of cards |
| CreateGiftCards.FinalStatus | app/Jobs/CreateGiftCards.php:128-132 | the `match (true)` always ends in a terminal status |
| CreateGiftCards.RollUp | app/Jobs/CreateGiftCards.php:128-132 | success iff every card was created; partial_failed iff some were created and some failed; failed iff cards exist and all failed |
| CreateGiftCards.ReportFileName | app/Jobs/CreateGiftCards.php:155 | "gift_cards_batch_" + id + ".xlsx", of the matching length |
| CreateGiftCards.ReportFileNameInjective | app/Jobs/CreateGiftCards.php:155 | two batches never share a report file |
| CreateGiftCards.Recipients | app/Jobs/CreateGiftCards.php:167-168 | an address is mailed iff it is a listed non-null entry that passes the e-mail filter |
| CreateGiftCards.SendExcelReport | app/Jobs/CreateGiftCards.php:152-181 | the report exports the batch's rows under its file name; mail goes to the valid recipients, and to nobody when storing fails |
| CreateGiftCards.IssueCard | app/Jobs/CreateGiftCards.php:50-121 | one loop iteration yields exactly the model's row for that card |
| CreateGiftCards.IssueAll | app/Jobs/CreateGiftCards.php:49-125 | the loop appends the batch's rows to the table and counts created and failed rows |
| CreateGiftCards.Finish | app/Jobs/CreateGiftCards.php:127-142 | the final status is the roll-up of the counts and is stored on that batch alone; the report covers the batch's earlier rows followed by the new ones and goes to the stored recipients only when the file was stored |
| CreateGiftCards.Handle | app/Jobs/CreateGiftCards.php:32-143 | status set to in_progress, then failed when the user is missing (no rows, no report), otherwise the rows are appended, the final status is the roll-up of their counts and the report covers the batch's rows; no other batch changes |
| CreateGiftCards.RunOutcome | app/Jobs/CreateGiftCards.php:128-163 | for a fresh batch the report holds exactly the cards made, and the batch succeeds iff all were created |
| MarkExpiredGiftCardsJob.Eligible | app/Jobs/MarkExpiredGiftCardsJob.php:34-35 | `whereNotIn('status', ['used', 'expired'])` on the batch's cards leaves its created and failed cards |
| MarkExpiredGiftCardsJob.Sweep | app/Jobs/MarkExpiredGiftCardsJob.php:34-36 | only statuses change: the batch's created/failed cards become expired, every other row is untouched |
| MarkExpiredGiftCardsJob.Handle | app/Jobs/MarkExpiredGiftCardsJob.php:24-39 | an unknown batch changes nothing; otherwise the table is swept and the count of eligible rows reported |
| MarkExpiredGiftCardsJob.CountEligible | app/Jobs/MarkExpiredGiftCardsJob.php:34-36 | the affected-row count never exceeds the table's size |
| MarkExpiredGiftCardsJob.AffectedIsChanged | app/Jobs/MarkExpiredGiftCardsJob.php:34-38 | the reported count is exactly the number of rows that changed |
| MarkExpiredGiftCardsJob.SweptHasNoneEligible | app/Jobs/MarkExpiredGiftCardsJob.php:35 | after a sweep no row of the batch is eligible again |
| MarkExpiredGiftCardsJob.SweepIdempotent | app/Jobs/MarkExpiredGiftCardsJob.php:34-36 | sweeping twice is sweeping once |
| MarkExpiredGiftCardsJob.CountEligibleByStatus | app/Jobs/MarkExpiredGiftCardsJob.php:35 | the swept rows are the batch's created plus failed cards |
| OrdersPaidJob.OrderGid | app/Jobs/OrdersPaidJob.php:68 | "gid://shopify/Order/" followed by the order id |
| OrdersPaidJob.GiftCardGid | app/Jobs/OrdersPaidJob.php:114 | "gid://shopify/GiftCard/" followed by the card id |
| OrdersPaidJob.GiftCardGidInjective | app/Jobs/OrdersPaidJob.php:114 | different card ids give different GIDs, so the update hits one card's rows |
| OrdersPaidJob.IsGiftCardPayment | app/Jobs/OrdersPaidJob.php:101 | a transaction counts iff its gateway is "gift_card" and its receipt is not PHP-empty |
| OrdersPaidJob.FirstReceipt | app/Jobs/OrdersPaidJob.php:100-106 | None iff no transaction is a gift-card payment with a non-empty receipt, else the receipt of the first one |
| OrdersPaidJob.FindReceipt | app/Jobs/OrdersPaidJob.php:100-106 | the `foreach … break` finds the first gift-card payment's receipt |
| OrdersPaidJob.Reconciled | app/Jobs/OrdersPaidJob.php:140-155 | a matching row gets the balance and becomes used iff the balance is ≤ 0 (or it was used already); other rows are unchanged |
| OrdersPaidJob.ApplyBalance | app/Jobs/OrdersPaidJob.php:153-155 | the update rewrites each row as `Reconciled` does, and keeps the table's length |
| OrdersPaidJob.ApplyBalanceIdempotent | app/Jobs/OrdersPaidJob.php:143-155 | replaying the same webhook update changes nothing further |
| OrdersPaidJob.ApplyBalanceFrame | app/Jobs/OrdersPaidJob.php:153-154 | rows of other gift cards are untouched |
| OrdersPaidJob.ExpiredSpentBecomesUsed | app/Jobs/OrdersPaidJob.php:149-151 | the update checks no status: an expired card with no balance left becomes used |
| OrdersPaidJob.PaidGiftCardId | app/Jobs/OrdersPaidJob.php:62-111 | an id is looked up iff the order id is truthy, the order query answered, a gift-card payment was found and its receipt names a truthy id; the id is the first such receipt's `gift_card_id`, never 0 |
| OrdersPaidJob.ScanStopsAtFirstPayment | app/Jobs/OrdersPaidJob.php:100-111 | a first gift-card payment whose receipt names no card ends the job, even if a later payment names one |
| OrdersPaidJob.Handle | app/Jobs/OrdersPaidJob.php:54-161 | MissingOrderId iff the order id is falsy; Updated iff an id was found and the card lookup returned a card, with its GID and balance (missing balance reads 0); the table changes only then, exactly as `ApplyBalance` says; query exceptions are caught |
| PlanController.RequestedPlan | app/Http/Controllers/PlanController.php:19-23 | the plan name keeps the input's length (0 when missing) and holds no upper-case ASCII letter |
| PlanController.Subscribed | app/Http/Controllers/PlanController.php:25-33 | the rows after a request: unchanged for an unknown plan, else the user's row holds the lower-cased plan; at most the user's key is added |
| PlanController.Subscribe | app/Http/Controllers/PlanController.php:17-37 | the rows become `Subscribed` of the old rows; 400 and no change for a plan outside starter/growth/pro; otherwise 200 and the user's row set to the lower-cased plan |
| PlanController.AcceptsAnyCase | app/Http/Controllers/PlanController.php:22-25 | any ASCII casing of an offered plan name selects that plan |
| PlanController.PlanExamples | app/Http/Controllers/PlanController.php:22-25 | "GrOwTh" selects growth; a request without a plan is refused |
| PlanController.StoredPlanIsValid | app/Http/Controllers/PlanController.php:25-33 | after any request, accepted or refused, every stored plan is one of the three |
| PlanController.SubscribeIdempotent | app/Http/Controllers/PlanController.php:30-33 | sending the same subscription twice leaves the rows as sending it once |
| PlanController.SubscribeFrame | app/Http/Controllers/PlanController.php:30-33 | across a request, another user's row is present exactly when it was, with the same plan |
| GiftCardBatchController.FailedFields | app/Http/Controllers/GiftCardBatchController.php:25-34 | a request passes iff value ≥ 1.00, count ≥ 1, length within 4..30, expiry absent or after today, prefix ≤ 50, note ≤ 1000, and every non-null list entry is an e-mail |
| GiftCardBatchController.BadEmails | app/Http/Controllers/GiftCardBatchController.php:31-32 | no `email_list.i` key iff every non-null entry is an e-mail |
| GiftCardBatchController.NewBatch | app/Http/Controllers/GiftCardBatchController.php:43-53 | the new batch is pending and within the validated bounds; an empty list is stored as null |
| GiftCardBatchController.Store | app/Http/Controllers/GiftCardBatchController.php:21-62 | 422 with the failed keys and no change, or exactly one new batch and one queued creation job for it |
| GiftCardBatchController.OwnedNewestFirst | app/Http/Controllers/GiftCardBatchController.php:74-75 | exactly the user's batches: every listed batch is theirs and every batch of theirs is listed |
| GiftCardBatchController.OwnedNewestFirstOrdered | app/Http/Controllers/GiftCardBatchController.php:74-75 | when ids grow with creation, the listing is newest first |
| GiftCardBatchController.PageOf | app/Http/Controllers/GiftCardBatchController.php:76 | at most ten items, the page's slice, empty past the end |
| GiftCardBatchController.LastPage | app/Http/Controllers/GiftCardBatchController.php:76 | the page count is at least 1 and covers the total without an empty last page |
| GiftCardBatchController.ExpiredGuardVacuous | app/Http/Controllers/GiftCardBatchController.php:81 | no batch status is "expired", so only the date decides |
| GiftCardBatchController.ExpiryJobs | app/Http/Controllers/GiftCardBatchController.php:77-86 | at most one sweep job per listed batch |
| GiftCardBatchController.ExpiryJobsExact | app/Http/Controllers/GiftCardBatchController.php:77-86 | a sweep job is queued for exactly the listed batches whose expiry has come |
| GiftCardBatchController.Index | app/Http/Controllers/GiftCardBatchController.php:72-89 | the user's page newest first, the page count, and the queue extended by the due sweep jobs only |
| GiftCardBatchController.PageKeepsOrder | app/Http/Controllers/GiftCardBatchController.php:75-76 | a page of a newest-first list is newest first |
| GiftCardBatchController.IndexShowsOwnBatches | app/Http/Controllers/GiftCardBatchController.php:74-76 | a listing shows at most ten of the user's own batches, newest first |
| GiftCardBatchController.Show | app/Http/Controllers/GiftCardBatchController.php:103-115 | 404 iff the batch is missing or not the user's; otherwise the requested page of its cards (at most ten, all of that batch) and their total |
| GiftCardBatchController.Download | app/Http/Controllers/GiftCardBatchController.php:125-140 | 404 for an unknown batch, 404 when its report file is missing, else that batch's report file |
| GiftCardBatchController.DownloadServesOwnReport | app/Http/Controllers/GiftCardBatchController.php:127-137 | a batch's download serves its own report and no other batch serves it |
| Dashboard.ValidateNumeric | resources/js/Pages/Embedded/Dashboard.jsx:40-44 | "" iff the value is non-empty and a positive number; "required" iff empty |
| Dashboard.ValidatePrefix | resources/js/Pages/Embedded/Dashboard.jsx:56-61 | "" iff some character is not whitespace and the length is at most 4; the empty message iff all blank |
| Dashboard.EmailPattern | resources/js/Pages/Embedded/Dashboard.jsx:50 | a matching entry has at least five characters, holds an '@' and no whitespace |
| Dashboard.EmailPatternExamples | resources/js/Pages/Embedded/Dashboard.jsx:50 | how the address pattern reads typical entries |
| Dashboard.Entries | resources/js/Pages/Embedded/Dashboard.jsx:48 | one trimmed entry per comma-separated piece |
| Dashboard.EntriesHaveNoComma | resources/js/Pages/Embedded/Dashboard.jsx:48 | no entry holds a comma |
| Dashboard.FirstInvalid | resources/js/Pages/Embedded/Dashboard.jsx:49-51 | `find`: None iff every entry matches, else the first entry that does not |
| Dashboard.ValidateEmails | resources/js/Pages/Embedded/Dashboard.jsx:46-54 | as written: the blank message iff the input is blank; "" when every entry matches; when some entry fails, the message names the first failing entry if it is non-empty, and "" if it is empty |
| Dashboard.EmptyEntryHidesBadOne | resources/js/Pages/Embedded/Dashboard.jsx:52 | as written, ",x" is accepted although "x" is not an address |
| Dashboard.ValidateEmailsCorrected | resources/js/Pages/Embedded/Dashboard.jsx:46-54 | "" iff the input is not blank and every entry matches; otherwise the message names the first failing entry, empty or not |
| Dashboard.TrailingCommaDiffers | resources/js/Pages/Embedded/Dashboard.jsx:46-54 | "a@b.co," is accepted as written, while the corrected validator reports its empty last entry |
| Dashboard.CurrentTotal | resources/js/Pages/Embedded/Dashboard.jsx:22-23 | the shared total when present (0 read as 0), and 0 without plan information |
| Dashboard.PlanLimit | resources/js/Pages/Embedded/Dashboard.jsx:22-24 | the limit is the shared one when non-zero, else 1000 |
| Dashboard.CreateDisabled | resources/js/Pages/Embedded/Dashboard.jsx:351 | the Create button can be disabled only when plan information was shared |
| Dashboard.OverLimit | resources/js/Pages/Embedded/Dashboard.jsx:82-84 | without plan information a request is blocked iff it asks for more than 1000 cards |
| Dashboard.DefaultsApply | resources/js/Pages/Embedded/Dashboard.jsx:22-24 | without plan information 1000 cards pass, 1001 are blocked and the button is enabled |
| Dashboard.DisabledIffNoRoom | resources/js/Pages/Embedded/Dashboard.jsx:82-90 | a disabled Create button means every positive count is blocked; an enabled one leaves room to request |
| Dashboard.NonEmpty | resources/js/Pages/Embedded/Dashboard.jsx:102 | `.filter(e => e)` keeps exactly the non-empty entries, never more than given |
| Dashboard.NonEmptySingle | resources/js/Pages/Embedded/Dashboard.jsx:102 | a single entry is kept iff it is non-empty |
| Dashboard.NonEmptyAppend | resources/js/Pages/Embedded/Dashboard.jsx:102 | filtering a concatenation concatenates the filtered parts, so order and repeated entries are kept |
| Dashboard.PayloadOf | resources/js/Pages/Embedded/Dashboard.jsx:92-105 | prefix sent iff addPrefix; email list sent iff sendEmail, and then it is the trimmed entries with the empty ones filtered out, in order; expiry and note null when empty |
| Dashboard.PayloadEmailsAreClean | resources/js/Pages/Embedded/Dashboard.jsx:98-103 | every address sent is non-empty, comma-free and without surrounding whitespace |
| Dashboard.Verdict | resources/js/Pages/Embedded/Dashboard.jsx:117-130 | as written: network alert iff the request failed; error alert on a non-OK status; queued iff `data.success` is truthy |
| Dashboard.AcceptedBatchReportedAsWrong | resources/js/Pages/Embedded/Dashboard.jsx:121 | as written, the store route's success answer gives "Something went wrong" |
| Dashboard.VerdictCorrected | resources/js/Pages/Embedded/Dashboard.jsx:117-130 | queued, with the batch id, iff an OK answer has status "success" |
| Dashboard.AcceptedBatchAnnounced | resources/js/Pages/Embedded/Dashboard.jsx:121-124 | corrected, an accepted batch is announced with its id |
| Dashboard.NumericErrors | resources/js/Pages/Embedded/Dashboard.jsx:68-72 | the re-check covers exactly the three numeric fields |
| Dashboard.NumericErrorsIff | resources/js/Pages/Embedded/Dashboard.jsx:75-79 | submission stops at the fields iff one of the three numbers is not positive |
| Dashboard.Form.constructor | resources/js/Pages/Embedded/Dashboard.jsx:27-37 | every field starts empty, with no errors and not submitting |
| Dashboard.Form.OnPrefixChange | resources/js/Pages/Embedded/Dashboard.jsx:246-248 | the prefix is stored upper-cased, with no lower-case ASCII letter left |
| Dashboard.Form.OnPrefixBlur | resources/js/Pages/Embedded/Dashboard.jsx:249-255 | the prefix's message is recorded and the other messages kept |
| Dashboard.Form.OnEmailListBlur | resources/js/Pages/Embedded/Dashboard.jsx:294-300 | corrected: the list's message from `Dashboard.ValidateEmailsCorrected` is recorded and the other messages kept |
| Dashboard.Form.OnNoteChange | resources/js/Pages/Embedded/Dashboard.jsx:322-324 | a note of at most 120 characters is taken, a longer one ignored; the note never exceeds 120 |
| Dashboard.Form.HandleSubmit | resources/js/Pages/Embedded/Dashboard.jsx:64-133 | corrected: errors become the three numeric checks only; field errors stop with no alert; over the limit alerts the limit and sends nothing; otherwise the form's payload is sent and the answer alerted by `Dashboard.VerdictCorrected`; submitting ends false |
| GiftCardBatchList.CeilDiv | resources/js/Pages/GiftCardBatchList.jsx:64 | `Math.ceil(a / d)`: the least q with a ≤ d·q |
| GiftCardBatchList.DaysLeft | resources/js/Pages/GiftCardBatchList.jsx:60-65 | never negative; 0 iff three days have passed; the whole days left rounded up; at most 3 |
| GiftCardBatchList.FreshBatchHasThreeDays | resources/js/Pages/GiftCardBatchList.jsx:63-64 | a batch created now has 3 days left |
| GiftCardBatchList.DaysLeftNonIncreasing | resources/js/Pages/GiftCardBatchList.jsx:60-65 | the countdown never rises as time passes |
| GiftCardBatchList.ExpiresAfterThreeDays | resources/js/Pages/GiftCardBatchList.jsx:70-71 | expired iff three days have passed since creation |
| GiftCardBatchList.DaysLabel | resources/js/Pages/GiftCardBatchList.jsx:90-110 | "Expired" when expired, else "Expires in …", ending in "days" iff the count is not 1 |
| GiftCardBatchList.BadgeTone | resources/js/Pages/GiftCardBatchList.jsx:123-130 | success → green, partial_failed → attention, anything else → critical |
| GiftCardBatchList.BadgeToneOfStatus | resources/js/Pages/GiftCardBatchList.jsx:123-130 | over the batch statuses, pending, in_progress and failed are critical |
| GiftCardBatchList.PrefixCell | resources/js/Pages/GiftCardBatchList.jsx:122 | the prefix when non-empty, else "—" |
| GiftCardBatchList.RowOf | resources/js/Pages/GiftCardBatchList.jsx:68-141 | a row copies the batch, disables Download iff three days have passed, and pairs the status with its tone |
| GiftCardBatchList.Rows | resources/js/Pages/GiftCardBatchList.jsx:68 | one row per batch, in order |
| GiftCardBatchList.ListPage.constructor | resources/js/Pages/GiftCardBatchList.jsx:17-20 | no batches, page 1, no paginator fields, loading |
| GiftCardBatchList.ListPage.FetchBatches | resources/js/Pages/GiftCardBatchList.jsx:26-43 | a served page replaces the rows (none when missing) and the paginator fields; a failure keeps them; loading ends |
| GiftCardBatchList.ListPage.OnNext | resources/js/Pages/GiftCardBatchList.jsx:199-200 | Next moves one page on; it stays within the last page when the paginator describes the page shown |
| GiftCardBatchList.ListPage.OnPrevious | resources/js/Pages/GiftCardBatchList.jsx:197-198 | Previous moves one page back; it stays at page 1 or above when the paginator describes the page shown |
| GiftCardBatchList.StaleNextOvershoots | resources/js/Pages/GiftCardBatchList.jsx:26-43 | after a failed fetch the paginator is stale: page 1 of 2, Next, a failed fetch, Next reaches page 3 |
| GiftCardBatchList.StalePreviousReachesZero | resources/js/Pages/GiftCardBatchList.jsx:26-43 | the same stale paginator lets Previous reach page 0 |

## Left out

- Logging, `sleep`/`usleep` delays, Inertia page rendering, and the `page`, `createPage` and `logsPage` actions are not modelled; none of them changes data.
- HTTP and GraphQL calls, `random_bytes`, `json_encode`/`json_decode`, `strip_tags`, `filter_var` and Laravel's `email` rule are parameters of the model. So are JavaScript `Number`, `Date`, the clock and file existence. Their own behaviour is outside the model.
- Queue workers and concurrency are not modelled. A dispatched job is appended to a queue sequence, and each job runs alone on the database.
- The `completed_at` timestamp that the job writes with the final status is not modelled; the model stores the status only.
- Dates are integer timestamps. Carbon parsing, time zones and the `date` rule's accepted formats are not modelled. `after:today` is "greater than today's timestamp".
- Card values are integer cents. The `numeric|min:1` rule becomes "at least 100 cents", and a value with more than two decimals is outside the model. JavaScript numbers are reals.
- The spreadsheet layout (`maatwebsite/excel`) and the mail body are not modelled. The report records the rows, the file name, whether storing succeeded and the recipients.
- The shop lookup at the start of the `orders/paid` job is not modelled. The order's transactions and the receipt's `gift_card_id` are parameters. A card id is a natural number where 0 is falsy; a non-numeric id string is not modelled.
- In the batch list, `orderBy('created_at', 'desc')` is modelled as descending ids. Ids grow with creation, and rows created in the same second keep id order.
- `show` returns the batch's cards in table order, and `paginate` reads a non-numeric page as 1. Both are taken as given.
- The unique index on card codes is not modelled. A duplicate code would make the insert throw, and the job would end there.
- The dashboard reads its plan information from `page.planInfo`, but no server code shares it: the Inertia middleware shares only `auth` and `ziggy` (app/Http/Middleware/HandleInertiaRequests.php:46-58), and no controller passes it. In the program as it stands the total is therefore always 0, the limit always 1000 and the Create button never disabled, which is the case `Dashboard.DefaultsApply` states. The model keeps the plan information as a general input, so the limit arithmetic is also stated for pages that do receive it.
- Navigation handlers (`handleDownload`, `handleViewLogs`), `toLocaleDateString` and the re-fetch that `useEffect` triggers after a page change are not modelled. `FetchBatches` is a separate call.
- Dashboard.Form.OnPrefixChange: upper-cases ASCII letters only, while JavaScript's `toUpperCase` also maps other scripts.
- Dashboard.ValidatePrefix: counts characters, while JavaScript `length` counts UTF-16 code units; they differ only outside the Basic Multilingual Plane.
- CreateGiftCards.DistinctDrawsGiveDistinctCodes: stated for even suffix lengths only. With an odd length the last half-byte of the draw is cut off, so two draws can give the same code.
- GiftCardBatchController.ExpiryJobs: its own contract gives only the length; the exact content is stated by GiftCardBatchController.ExpiryJobsExact.
- The `orders/paid` update is not guarded by card status, so an expired card can become used; the model follows the code (`OrdersPaidJob.ExpiredSpentBecomesUsed`).
- CreateGiftCards.GenerateCodeShape: the length is counted in characters, while `strlen` and `substr` count bytes. A prefix with a multi-byte UTF-8 character (such as "é", two bytes) gets a random part one shorter per extra byte, so the PHP code is shorter than the requested length; `strtoupper` also leaves non-ASCII letters alone, which `Text.Upper` matches.
- CreateGiftCards.GenerateCode: the same byte and character difference as `CreateGiftCards.GenerateCodeShape`.
- Dashboard.Form.OnEmailListBlur: records the corrected validator's message; the page as written records `Dashboard.ValidateEmails`, which accepts lists such as ",x" (see Findings). The two also differ on a trailing comma: "a@b.co," is accepted as written and reported as an empty invalid entry by the corrected validator (`Dashboard.TrailingCommaDiffers`).
- Dashboard.Form.HandleSubmit: alerts with the corrected verdict; the page as written uses `Dashboard.Verdict`, which reports an accepted batch as "Something went wrong" (see Findings).
- `download` finds the batch without checking its owner, while `show` scopes to the user. The model follows each action as written.

## Findings

| source | as written | input that shows it | evidently intended | confidence | as-written member | corrected member |
|---|---|---|---|---|---|---|
| resources/js/Pages/Embedded/Dashboard.jsx:49-52 | the entry `find` returns is tested with `if (invalid)`, and "" is falsy | ",x": the entries are "" and "x", `find` returns "", and the list is accepted | report the first entry that fails the pattern, empty or not: an empty entry is not an address. Skipping empty entries, as the payload's `.filter((e) => e)` does, is an equally plausible reading; it differs only on lists with an empty entry, such as "a@b.co," (see `Dashboard.TrailingCommaDiffers`) | not executed | Dashboard.EmptyEntryHidesBadOne | Dashboard.ValidateEmailsCorrected |
| resources/js/Pages/Embedded/Dashboard.jsx:121 | success is read from `data.success` | an accepted request: the store action answers `{status: "success", message, batch_id}` (app/Http/Controllers/GiftCardBatchController.php:57-61), which has no `success` key, so the page alerts "Something went wrong" | test `data.status === "success"` | not executed | Dashboard.AcceptedBatchReportedAsWrong | Dashboard.AcceptedBatchAnnounced |

The rest of the model uses the corrected definitions: `Dashboard.Form.OnEmailListBlur` records `Dashboard.ValidateEmailsCorrected`, and `Dashboard.Form.HandleSubmit` alerts `Dashboard.VerdictCorrected`.
