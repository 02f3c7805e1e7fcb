# zus gift-card tool — Dafny model

The zus repository is a browser front-end with a thin Express proxy (`server.js`). Together
they drive one vendor loyalty API. The user signs up or logs in with a phone OTP and gets a
bearer token. With that token they can send gift cards in batches of up to 100 or one at a
time, redeem gift-card codes (typed, or fetched page by page from the incoming list),
activate the wallet balance and delete the account.

This project models the decision logic of that system. It leaves out the HTTP plumbing.

- **Phone numbers.** The front end's formatting and full-number rules are in
  `phone_formatter.dfy`. The server's own "digits only, add 63, must be 12 digits" rule is in
  `server_sessions.dfy`.
- **Server handlers.** The in-memory `sessions` table is a class with a `map` field. The
  request-otp, get-bearer-token and register-account handlers are methods on it
  (`server_sessions.dfy`). The batch-send and batch-redeem handlers are in `batch_send.dfy`
  and `batch_redeem.dfy`.
- **Vendor replies.** A reply is a value passed in as a parameter (`vendor.dfy`).
- **Fan-out requests.** The per-request replies of a fan-out are a function from the request
  number to its reply.
- **Cyclic generators.** The name and message generators are classes with fixed lists and a
  cursor field (`name_generator.dfy`, `message_generator.dfy`). `generators.dfy` composes them.
- **Forms.** Each React form is a class whose fields are its state. Each handler is a method
  that takes the API reply as a parameter: `Threw(message)` or `Returned(json)`, from
  `client_api.dfy`. Confirmations and random choices are parameters too.
- **Timers.** Delayed timeouts are separate methods. The progress timer is a tick method.
- **Shared pieces, defined once:**
  - JavaScript string behaviour (`js_strings.dfy`): `||` on strings, `trim`, `includes`,
    ASCII `toLowerCase`, `replace(/\D/g, '')`;
  - the code-list parser (`code_list.dfy`);
  - the stable sort by `index` (`index_order.dfy`);
  - `filter`/`forEach` accumulation (`result_lists.dfy`);
  - `htmlEscape` (`html_escape.dfy`);
  - the progress tick (`progress.dfy`).

The main properties proved are these:

- **Code lists.** Joining parsed codes with `'\n'` and parsing again gives the same list.
- **Phone formatting.** Formatting is idempotent. The full number and the formatted input
  agree except while a local number is incomplete. A ten-digit number survives the trip to
  the full number and back to the display. Every complete number from the front end passes
  the server's check unchanged.
- **Sessions.** A session is created only for a new key and changes no other key. It is
  deleted only when login finds a token or registration succeeds.
- **Batch send.** The handler sends exactly the clamped count of requests. Request `k` asks
  for the `k mod 51`-th amount. Each reply's classification keeps "stop iff insufficient",
  and the balance complaint takes precedence over a reference id.
- **Result lists.** After the stable sort by index, success counts equal those of the
  unsorted reply. The displayed list is the summary, the successful items in index order,
  and a stopped entry exactly when some item asked to stop. The last balance is that of the
  last successful item.
- **Pagination.** The do-while fetch loop equals a recursive specification. By lemma, that
  specification concatenates the pages in order, and the first failing page aborts it.
- **Escaping.** `htmlEscape` is undone by entity decoding, and its output has no raw
  `<`, `>`, `"` or `'`.
- **Forms.** Each form's step machine, validation cascade, token hand-off and reset are
  stated field by field.

## Model

| member | source | states |
|---|---|---|
| JsStrings.DigitsOnly | src/utils/phoneFormatter.js:6 | `replace(/\D/g, '')` keeps only digits, never lengthens, and leaves an all-digit string unchanged |
| JsStrings.DigitsOnlyAppend | src/utils/phoneFormatter.js:6 | the digits of a concatenation are the digits of each part in order, so every digit of the input is kept where it stood |
| JsStrings.DigitsOnlyChar | src/utils/phoneFormatter.js:6 | a single digit is kept and any other character is dropped |
| PhoneFormatter.FormatPhoneInput | src/utils/phoneFormatter.js:4-34 | result is digits only, at most 12; no digits gives ""; 1-9 digits without "63" are kept; "63..." keeps its first 12 digits; 10 or more other digits become "63" + first 10 (length 12) |
| PhoneFormatter.PhoneDisplayValue | src/utils/phoneFormatter.js:37-49 | digits only; the "63" is stripped exactly from twelve-digit "63..." numbers |
| PhoneFormatter.FullPhoneNumber | src/utils/phoneFormatter.js:52-74 | result is "" or a "63..." digit string of at most 12; it is "" exactly when there are no digits or 1-9 digits without "63" |
| PhoneFormatter.FormatIdempotent | src/utils/phoneFormatter.js:14-31 | formatting a formatted value changes nothing (it is re-applied on every keystroke) |
| PhoneFormatter.FullVersusFormat | src/utils/phoneFormatter.js:52-74 | the full number equals the formatted input except for 1-9 digits without "63", where it is "" |
| PhoneFormatter.DisplayOfFullNumber | src/utils/phoneFormatter.js:37-74 | for every ten-digit d, the display of the full number of d is d |
| PhoneFormatter.CompleteNumberDigits | src/components/LoginForm.js:22-26 | the forms' "full number of length 12" check holds exactly for "63" plus at least ten digits, or at least ten digits without "63" |
| ServerSessions.SessionKey | server.js:102 | `sessionId \|\| 'default'` is never empty and is the given id when there is one |
| ServerSessions.GetOrCreateKeepsExisting | server.js:24-33 | for an existing key, getSession returns the stored record and the table is unchanged |
| ServerSessions.GetOrCreateAddsOnlyKey | server.js:24-33 | for a new key, the record has the fresh device id, no phone and no sign-up bearer; the key set grows by that key only and every other record is kept |
| ServerSessions.GetOrCreateIdempotent | server.js:24-33 | a second getSession for the same key returns the first one's record and changes nothing, whatever device id it would generate |
| ServerSessions.ProcessPhone | server.js:90-93 | all non-digits removed, "63" prepended exactly when absent; the result is digits starting with "63" |
| ServerSessions.ProcessPhoneIdempotent | server.js:90-93 | normalising a normalised phone changes nothing |
| ServerSessions.OtpPhone | server.js:85-100 | missing phone gives the required error; otherwise success exactly when the normalised phone has 12 digits, and then it is that phone; any other length gives the length error |
| ServerSessions.FrontEndNumberAccepted | server.js:90-100 | every twelve-character full number the front end produces passes the server's check unchanged |
| ServerSessions.LocalNumberAccepted | server.js:90-100 | a ten-digit local number without "63" is accepted as "63" + the number |
| ServerSessions.StatusFailure | server.js:250-274 | 429 gives rate_limit, 422 gives validation, any other status gives unknown with that status; the message is the body's or the fallback, never empty |
| ServerSessions.OtpAnswer | server.js:128-160 | success exactly for no transport error and a 200 reply with `success`; a transport error gives a network error; any other reply gives the 429 rate-limit, 422 validation or unknown failure, each with the body's message or its own fallback text, and the status code |
| ServerSessions.FirstPresent | server.js:228-237 | the first non-empty entry of an `if ... else if` chain, or none exactly when every entry is empty |
| ServerSessions.FirstPresentAt | server.js:228-237 | an entry preceded only by empty entries is the one picked |
| ServerSessions.LoginToken | server.js:228-237 | no body gives no token; a found token is non-empty; `data.token` wins when present |
| ServerSessions.LoginTokenOrder | server.js:228-237 | `token`, then `data.access_token`, then `access_token` are used only when every earlier field is empty |
| ServerSessions.LoginAnswer | server.js:205-274 | a transport error gives a network error; the new-user answer holds exactly for a 200 "account does not exist" reply with `success === false`; any other 200 reply with a token succeeds with that token and the retrieved message; every remaining reply gives the 429 rate-limit, 422 invalid-OTP or unknown failure with the body's message or the fallback text |
| ServerSessions.LoginNewUserFirst | server.js:209-248 | the new-user answer wins over any token in the reply; a 200 reply with neither falls through to the unknown error with status 200 |
| ServerSessions.RegisterToken | server.js:319-325 | the registration token is `data.token`, else `token`, and is never empty |
| ServerSessions.RegisterAnswer | server.js:315-342 | success exactly for no transport error and a 200 reply with `success`, carrying the registration token; other failures are validation errors with the status |
| ServerSessions.LoginPhone | server.js:172-183 | a given phone is normalised without a length check; otherwise the session's phone is used; missing exactly when both are absent |
| ServerSessions.SessionTable.constructor | server.js:16 | the table starts empty |
| ServerSessions.SessionTable.GetSession | server.js:24-33 | returns the stored record or creates one; the new table is the get-or-create of the old one |
| ServerSessions.SessionTable.RequestOtp | server.js:82-161 | an invalid phone changes no session and sends nothing; otherwise the session for the key stores the normalised phone, replaces the sign-up bearer only when one is given, and the request carries `bearer \|\| 'false'` and the session's device id |
| ServerSessions.SessionTable.GetBearerToken | server.js:164-275 | a missing OTP changes nothing; a missing phone still creates the session; the request uses the session's sign-up bearer or 'false'; the session is deleted exactly when a token is issued |
| ServerSessions.SessionTable.RegisterAccount | server.js:278-343 | a missing field changes nothing; the bearer is the given one, else the sign-up bearer, else 'false'; `dob_private` is "1"/"0"; the session is deleted exactly when registration succeeds |
| Vendor.MessageOr | server.js:139 | `body?.message \|\| fallback` is the body's message when present and never empty with a non-empty fallback |
| Vendor.HttpStatusText | server.js:463 | the error text is "HTTP " followed by the decimal status |
| BatchSend.NumCount | server.js:407 | the count is within 1..100; missing, NaN or 0 gives 100; 1..100 is kept; above 100 gives 100; negative gives 1 |
| BatchSend.AmountText | server.js:410 | `toFixed(2)` of a whole number ends in ".00" |
| BatchSend.ScheduleCycles | server.js:408-417 | the amount schedule repeats every 51 requests; request k of the first round asks for 300 - k; every amount is within 250..300 |
| BatchSend.Amounts | server.js:408-411 | the loop yields 51 amounts "300.00" down to "250.00", and `amounts[k % 51]` is the scheduled amount of request k |
| BatchSend.Classify | server.js:445-464 | stop iff insufficient; insufficient iff a 200 reply whose lower-cased message reports no balance; success iff a reference id is present, which is non-empty and excludes stop; an error exactly when neither; a 200 reply with neither gives its message or "Unknown API response"; a non-200 or bodiless reply gives "HTTP <status>" |
| BatchSend.InsufficientBeforeRefId | server.js:451-458 | a balance complaint wins over a reference id in the same reply |
| BatchSend.RefIdMeansSuccess | server.js:451-458 | a 200 reply with a reference id and no complaint is a success carrying that id |
| BatchSend.Send | server.js:400-485 | no phone gives the error and sends nothing; otherwise exactly NumCount requests and items, item k describes reply k and request k carries amount k of the schedule and the defaulted names and message |
| BatchRedeem.RedeemResult | server.js:563-587 | success iff status 200 with `data`; a success has no error and carries the amount of `data` or '0.00' when it is absent, its promotional balance or '0', and its description and reference number; failures carry "0.00", "0", empty description and reference, and the body's message or "HTTP <status>" |
| BatchRedeem.RedeemAll | server.js:549-588 | one item per code, item k has index k, code k and describes reply k |
| BatchRedeem.FailuresCarryNoAmount | server.js:577-586 | a failed code reports amount "0.00" and a non-empty error |
| BatchRedeem.Handle | server.js:532-592 | missing bearer or codes, or no parsed code, answers the error and leaves the sessions alone; otherwise the default session is got or created and the result is one item per parsed code |
| CodeList.ParseCodes | server.js:539-542 | every parsed code is non-empty, trimmed and free of `,`, CR and LF |
| CodeList.ParseJoinRoundTrip | src/components/RedeemForm.js:25-51 | clean codes joined with '\n' parse back to the same list, so the server sees the codes the form parsed |
| CodeList.ParseIsStable | server.js:539-542 | parsing, joining and parsing again gives the first parse |
| Cycle.CursorInRange | src/utils/nameGenerator.js:40 | a cursor that starts in range stays in range after any number of calls |
| Cycle.FirstLap | src/utils/messageGenerator.js:21-22 | from 0, j < n calls leave the cursor at j, and n calls bring it back to 0 |
| NameGenerator.FullNameIsNotPlaceholder | src/utils/nameGenerator.js:35-41 | a generated full name is never the "Loading..." placeholder |
| NameGenerator.SameLengthLap | src/utils/nameGenerator.js:38-40 | with equal list lengths, the j-th call from 0 pairs the j-th first and j-th last name |
| NameGenerator.NameGenerator.constructor | src/utils/nameGenerator.js:3-5 | lists as loaded, cursor 0 |
| NameGenerator.NameGenerator.NextFullName | src/utils/nameGenerator.js:34-42 | an empty list gives "Loading..." and keeps the cursor; otherwise the names at the old cursor modulo each length, and the cursor steps modulo the longer length and stays below it |
| NameGenerator.NameGenerator.GenerateBothNames | src/utils/nameGenerator.js:47-52 | the sender gets the name at the cursor and the recipient the name at the next position; the cursor moves two steps |
| NameGenerator.NameGenerator.AllFirstNames | src/utils/nameGenerator.js:64-66 | returns the list and changes nothing |
| NameGenerator.NameGenerator.AllLastNames | src/utils/nameGenerator.js:71-73 | returns the list and changes nothing |
| NameGenerator.NameGenerator.RandomFirstName | src/utils/nameGenerator.js:10-13 | "Loading..." for an empty list, else a member of the list |
| NameGenerator.NameGenerator.RandomLastName | src/utils/nameGenerator.js:18-21 | "Loading..." for an empty list, else a member of the list |
| NameGenerator.NameGenerator.RandomFullName | src/utils/nameGenerator.js:26-29 | "Loading..." unless both lists are loaded, else a first and a last name from the lists joined by a space |
| MessageGenerator.CyclesThroughList | src/utils/messageGenerator.js:17-24 | from 0, \|messages\| calls return the list in order and bring the cursor back to 0, after which the outputs repeat |
| MessageGenerator.MessageGenerator.constructor | src/utils/messageGenerator.js:3-4 | list as loaded, cursor 0 |
| MessageGenerator.MessageGenerator.NextMessage | src/utils/messageGenerator.js:17-24 | an empty list gives "Loading..." and keeps the cursor; otherwise the message at the cursor, and the cursor steps modulo the length, staying in range |
| MessageGenerator.MessageGenerator.AllMessages | src/utils/messageGenerator.js:36-38 | returns the list and changes nothing |
| MessageGenerator.MessageGenerator.RandomMessage | src/utils/messageGenerator.js:9-12 | "Loading..." for an empty list, else a member of the list |
| Generators.GenerateAll | src/utils/generators.js:8-23 | the error, with no cursor moved, exactly when a library is not loaded; otherwise both names from generateBothNames, then the message, with the name cursor two steps and the message cursor one step on |
| Generators.GenerateEmail | src/utils/generators.js:28-33 | the address is the local part, "@" and one of the six domains |
| Generators.EmailParts | src/utils/generators.js:28-33 | the address splits back into the local part and the chosen domain |
| HtmlEscape.Escape | src/components/GiftCardSender.js:216-225 | the output has no raw `<`, `>`, `"` or `'` and is at least as long as the input |
| HtmlEscape.EscapeAppend | src/components/GiftCardSender.js:216-225 | escaping works character by character: it distributes over concatenation |
| HtmlEscape.UnescapeEscape | src/components/GiftCardSender.js:216-225 | decoding the entities gives back the original text |
| HtmlEscape.EscapePlain | src/components/RedeemForm.js:180-189 | text without special characters is unchanged |
| IndexOrder.SortByIndex | src/components/GiftCardSender.js:178 | the result is in ascending index order and is a permutation of the input |
| IndexOrder.SortSortedIsIdentity | src/components/RedeemForm.js:52 | a reply already in index order is left as it is |
| IndexOrder.FilterKeepsOrder | src/components/GiftCardSender.js:196 | keeping the successful items of an index-ordered list keeps index order |
| IndexOrder.AnyOfPermutation | src/components/GiftCardSender.js:181-193 | sorting does not change whether some item asks to stop |
| ResultLists.Filter | src/components/GiftCardSender.js:196 | every kept element satisfies the predicate, every satisfying element is kept, and nothing else appears |
| ResultLists.FilterAppend | src/components/GiftCardSender.js:196 | filtering distributes over concatenation, so kept items stay in their original order |
| ResultLists.FilterCountOfPermutation | src/components/RedeemForm.js:52-64 | reordering a list does not change how many of its items succeed |
| ResultLists.AnySnoc | src/components/GiftCardSender.js:190-192 | one more item sets the flag exactly when it asks to stop |
| Progress.TicksBounded | src/components/RedeemForm.js:91-98 | k ticks from 0 give min(k * step, 90) for steps 5 and 10 and never leave 0..90 |
| Progress.FormTickersBounded | src/components/SignupForm.js:123-131 | both tickers stay within 0..90 and reach 90 after 18 (step 5) or 9 (step 10) ticks |
| GiftCardSender.Rows | src/components/GiftCardSender.js:196-205 | the list is the summary with the count, one row per kept item in order, and a final stopped row exactly when stop holds |
| GiftCardSender.Display | src/components/GiftCardSender.js:178-205 | the list holds the successful items in index order, counts every success of the reply, and ends with a stopped row exactly when some item asked to stop |
| GiftCardSender.Aggregate | src/components/GiftCardSender.js:181-196 | the loop's success count is the number of successful items, the stop flag holds iff some item stops, and the filtered list is the successful items in order |
| GiftCardSender.ProcessResults | src/components/GiftCardSender.js:177-205 | sort, loop and filter produce exactly the list Display describes |
| GiftCardSender.ActivationDisplay | src/components/GiftCardSender.js:91-104 | "already"/"activated"/"exist" gives the already-activated text; otherwise "unauthorized"/"invalid token" gives the invalid-token text; otherwise exactly the message itself if at most 50 characters, else "Failed to activate balance"; never longer than 50 |
| GiftCardSender.CatchDisplay | src/components/GiftCardSender.js:115-123 | "network"/"fetch" gives the connection text; otherwise exactly the message if at most 50 characters, else "Failed to activate balance"; never longer than 50 |
| GiftCardSender.ShortMessagesShown | src/components/GiftCardSender.js:99-104 | a message that trips no keyword test is shown as it is exactly when it has at most 50 characters, and a longer one becomes "Failed to activate balance" |
| GiftCardSender.ShortCatchMessagesShown | src/components/GiftCardSender.js:115-123 | a thrown error naming neither the network nor a fetch is shown as it is exactly when it has at most 50 characters, and a longer one becomes "Failed to activate balance" |
| GiftCardSender.ActivateOnce | src/components/GiftCardSender.js:67-69 | a token once recorded as attempted never starts another activation |
| GiftCardSender.GiftCardSender.constructor | src/components/GiftCardSender.js:7-17 | every field starts empty, false or absent |
| GiftCardSender.GiftCardSender.HandleGenerateAll | src/components/GiftCardSender.js:146-155 | a generator error is alerted and changes no field and neither cursor; otherwise the sender is the name at the old name cursor, the recipient the name at the next position and the message the one at the old message cursor; the name cursor moves two steps and the message cursor one |
| GiftCardSender.GiftCardSender.SendRequests | src/components/GiftCardSender.js:158-214 | a blank phone is alerted and nothing is sent; otherwise one batch of 100 with the defaulted names and message goes out, and the list is Display of the reply or the thrown error; the balance is refreshed exactly when a batch was sent and returned |
| GiftCardSender.GiftCardSender.SendBatch | src/components/GiftCardSender.js:164-213 | the request carries the defaulted fields; the list is the error row or Display of the reply; the balance is refreshed exactly when the call returned; loading ends false |
| GiftCardSender.GiftCardSender.OnTokenChange | src/components/GiftCardSender.js:62-144 | an activation starts exactly when the guard holds, and the token joins the attempted set exactly then; an unusable token clears the status and the flag |
| GiftCardSender.GiftCardSender.BeginActivation | src/components/GiftCardSender.js:75-76 | the flag is set and the activating text shown |
| GiftCardSender.GiftCardSender.FinishActivation | src/components/GiftCardSender.js:78-133 | success shows the activated text and asks for a balance refresh; a refusal or a thrown error is shown through the two mappings; the flag is cleared; the status is non-empty and at most 50 characters |
| GiftCardSender.GiftCardSender.ClearActivationStatus | src/components/GiftCardSender.js:86-88 | only the activation status is cleared |
| GiftCardSender.GiftCardSender.FetchBalance | src/components/GiftCardSender.js:20-41 | a request is made iff the token is longer than 20; otherwise the balance is cleared; a successful reply replaces it, anything else keeps it |
| RedeemForm.LastBalanceOfLastSuccess | src/components/RedeemForm.js:56-62 | the last balance is that of the last successful item ("0" if it is empty or there is none), never empty |
| RedeemForm.Tally | src/components/RedeemForm.js:54-64 | the loop counts the successful items and ends with the last balance |
| RedeemForm.BatchStatus | src/components/RedeemForm.js:52-66 | the summary counts every success of the reply out of all items, with the balance of the last success in index order |
| RedeemForm.RequestFor | src/components/RedeemForm.js:37-51 | exactly one code goes to the single endpoint; several are joined and parse back to the same list |
| RedeemForm.LastPageOf | src/components/RedeemForm.js:117 | `last_page \|\| 1` is never 0 and is the page's value when present |
| RedeemForm.FetchConcatenates | src/components/RedeemForm.js:103-119 | when pages current..n succeed and report n pages, the fetch returns their cards concatenated in page order |
| RedeemForm.FirstFailureAborts | src/components/RedeemForm.js:107-111 | the first page that throws or is unsuccessful aborts the fetch |
| RedeemForm.FetchAllPages | src/components/RedeemForm.js:103-119 | the do-while returns the recursive fetch's outcome, requesting pages 1, 2, ... in order and at least one |
| RedeemForm.RedemptionCodes | src/components/RedeemForm.js:128-130 | the codes are the non-empty redemption codes of the cards: each is non-empty, comes from a card, and every card's non-empty code is among them |
| RedeemForm.RedemptionCodesAppend | src/components/RedeemForm.js:113-130 | the codes of concatenated pages are the codes of each page in page order |
| RedeemForm.RedeemForm.constructor | src/components/RedeemForm.js:7-12 | empty codes, status and results, not busy, progress 0 |
| RedeemForm.RedeemForm.ShowBatch | src/components/RedeemForm.js:52-68 | the results are the reply in index order, shown, with the batch summary as status |
| RedeemForm.RedeemForm.RedeemSingle | src/components/RedeemForm.js:37-48 | success shows the amount and balance and one result row and asks for a refresh; a refusal shows the error or default; a thrown call shows "Error: " and the message |
| RedeemForm.RedeemForm.RedeemBatch | src/components/RedeemForm.js:49-75 | a reply shows its sorted results and summary and asks for a refresh; a thrown call shows the error |
| RedeemForm.RedeemForm.RedeemGiftCard | src/components/RedeemForm.js:14-76 | no token, blank input or no parsed code sets its status and sends nothing; otherwise the request is RequestFor of the parsed codes, and the status, results and refresh follow the reply; a thrown single or batch call clears and hides the results; the code text and the redeem-all state are kept |
| RedeemForm.RedeemForm.ProgressTick | src/components/RedeemForm.js:91-98 | one tick of step 5, keeping a multiple of 5 within 0..90 |
| RedeemForm.RedeemForm.RedeemCodes | src/components/RedeemForm.js:139-173 | the codes are put in the text area and sent as one batch; a reply sets progress 100 and shows the batch; a thrown call resets progress and shows the error |
| RedeemForm.RedeemForm.RedeemAll | src/components/RedeemForm.js:78-178 | no token only sets the status; otherwise pages 1, 2, ... are fetched; a failed page, no cards or no codes ends with its status and sends nothing; otherwise the codes go out joined by '\n' and fill the code text, and a thrown batch leaves the results cleared and hidden; when nothing is sent the code text is kept; the busy flag always ends false |
| RedeemForm.RedeemForm.ResetProgress | src/components/RedeemForm.js:176 | only the progress is reset to 0 |
| SignupForm.FinalToken | src/components/SignupForm.js:151 | the reply's token, else the kept token, else ""; empty exactly when both are |
| SignupForm.SignupForm.constructor | src/components/SignupForm.js:9-22 | step 1, empty fields, private date of birth, no token |
| SignupForm.SignupForm.EditPhone | src/components/SignupForm.js:193 | the phone field holds the formatted input; every other field, status, the token, the step and the progress are kept |
| SignupForm.SignupForm.GenerateSignupData | src/components/SignupForm.js:35-45 | while names load only the alert is raised; otherwise names from the lists, the generated email and the given date of birth; phone, OTP, privacy flag, busy flag, token, step, progress and statuses are kept |
| SignupForm.SignupForm.RequestSignupOtp | src/components/SignupForm.js:47-72 | a blank phone or incomplete number only sets the status; the request carries the full number; the status follows the reply; the step becomes 2 exactly on success; phone, OTP, token, the personal fields, the privacy and busy flags, progress and the other statuses are kept |
| SignupForm.SignupForm.RecordOtpReply | src/components/SignupForm.js:61-71 | a throw shows the error, success shows the sent message and moves to step 2, a failure shows the reply's error or the default; everything but the OTP status and the step is kept |
| SignupForm.SignupForm.VerifySignupOtp | src/components/SignupForm.js:74-104 | an empty phone or OTP or incomplete number only sets the status; success with a token or the new-user flag moves to step 3 and keeps the token or none; anything else keeps step and token; phone, OTP, the personal fields, the privacy and busy flags, progress and the other statuses are kept |
| SignupForm.SignupForm.RegisterAccount | src/components/SignupForm.js:106-180 | missing fields or an incomplete number only set the status; the registration carries the kept token or ""; on success FinalToken is handed over; progress is 100 on a reply and 0 on a throw |
| SignupForm.SignupForm.ProgressTick | src/components/SignupForm.js:123-131 | one tick of step 10, keeping a multiple of 10 within 0..90; every other field is kept |
| SignupForm.SignupForm.ResetProgress | src/components/SignupForm.js:178 | the progress is reset to 0 and every other field is kept |
| SignupForm.SignupForm.ResetAfterRegistration | src/components/SignupForm.js:154-168 | back to step 1, every field and status cleared, date of birth private again, no token |
| LoginForm.NewUserIsNoLogin | src/components/LoginForm.js:79-91 | the server's new-user answer (no token) never hands a token over |
| LoginForm.LoginForm.constructor | src/components/LoginForm.js:8-14 | step 1, empty fields and statuses, progress 0 |
| LoginForm.LoginForm.EditPhone | src/components/LoginForm.js:114 | the phone field holds the formatted input |
| LoginForm.LoginForm.RequestOtp | src/components/LoginForm.js:16-41 | a blank phone or incomplete number only sets the status; the request carries the full number; the step becomes 2 exactly on success; a failure shows the error or the default |
| LoginForm.LoginForm.GetBearerToken | src/components/LoginForm.js:43-101 | empty phone or OTP or an incomplete number sends nothing; the token is handed over exactly for a successful reply with a non-empty token; progress is 100 on a reply and 0 on a throw |
| LoginForm.LoginForm.ProgressTick | src/components/LoginForm.js:60-68 | one tick of step 10, keeping a multiple of 10 within 0..90 |
| LoginForm.LoginForm.ResetProgress | src/components/LoginForm.js:99 | only the progress is reset to 0 |
| LoginForm.LoginForm.ResetAfterLogin | src/components/LoginForm.js:82-89 | back to step 1 with phone, OTP and both statuses cleared |
| CustomSendForm.Validate | src/components/CustomSendForm.js:30-53 | each message is produced exactly when its check is the first to fail, in the order bearer, phone, amount, sender, recipient; none exactly when all pass |
| CustomSendForm.Payload | src/components/CustomSendForm.js:72-80 | template '1', payment method '99', trimmed names and phone, and the trimmed message or the default text when it is blank |
| CustomSendForm.ValidPayloadIsFilled | src/components/CustomSendForm.js:30-80 | a request that passed the checks has non-empty names, phone, message and bearer |
| CustomSendForm.CustomSendForm.constructor | src/components/CustomSendForm.js:8-16 | empty fields with amount "50.00", no success data, progress 0 |
| CustomSendForm.CustomSendForm.HandleGenerateAll | src/components/CustomSendForm.js:18-27 | a generator error becomes the status and changes no field and neither cursor; otherwise the sender is the name at the old name cursor, the recipient the name at the next position and the message the one at the old message cursor; the name cursor moves two steps and the message cursor one |
| CustomSendForm.CustomSendForm.SendGiftCard | src/components/CustomSendForm.js:29-105 | the first failing check sets its message and nothing is sent; otherwise Payload goes out and the reply is shown; the form fields never change |
| CustomSendForm.CustomSendForm.Submit | src/components/CustomSendForm.js:55-104 | success shows the reference id and keeps the reply; a refusal shows the error or default; a throw shows "ERROR: " and resets progress |
| CustomSendForm.CustomSendForm.HandleSendAnother | src/components/CustomSendForm.js:107-111 | only the success data and the status are cleared |
| CustomSendForm.CustomSendForm.ProgressTick | src/components/CustomSendForm.js:61-69 | one tick of step 10, keeping a multiple of 10 within 0..90 |
| CustomSendForm.CustomSendForm.ResetProgress | src/components/CustomSendForm.js:103 | only the progress is reset to 0 |
| DeleteAccountForm.DeleteAccountForm.constructor | src/components/DeleteAccountForm.js:7-8 | empty reason and status |
| DeleteAccountForm.DeleteAccountForm.DeleteAccount | src/components/DeleteAccountForm.js:11-53 | no token sets the status and shows no confirmation; the request goes out exactly when both confirmations are accepted; a declined one changes nothing; success clears the token to "", a failure keeps it and shows the error or default |
| DeleteAccountForm.DeleteAccountForm.ResetAfterDelete | src/components/DeleteAccountForm.js:42-46 | reason and status are cleared |

## Left out

- HTTP plumbing is not modelled. This covers `makeRequest`, axios, FormData, the fixed headers, Express routing and `src/services/api.js`. Vendor and server replies are parameters instead.
- Concurrency is not modelled. The `Promise.all` fan-outs of batch-send and batch-redeem are sequences in request order, so interleavings are not captured.
- Floating-point values are not modelled: the `totalAmount` sums, the batch summary's total, `parseFloat(amount)` and `toFixed(2)`. In the custom send form the outcome of `parseFloat` and the rendered amount are parameters.
- `generateDeviceId`, the random picks, the random part of `generateEmail`, `generateDOB` and the date-of-birth limit effect are not modelled. Each is a parameter of the member that uses it.
- Timers are not modelled as timers. Each `setTimeout` body is its own method, and each `setInterval` is the `ProgressTick` method.
- React plumbing is not modelled: `useEffect` dependency tracking, window events (a refresh request is a boolean result), JSX rendering and the `maxLength` attributes of the inputs.
- These server handlers are not part of this model: single send-custom, single redeem, incoming gift cards, activate balance, get balance, redeemed total and delete account. Their client-side effects are modelled from the reply they return.
- `src/App.js`, `AlertProvider.js`, `ZusAlert.js`, `CoffeeProgressBar.js` and `Header.js` are thin wiring and rendering, and are not part of this model.
- String operations use simplified semantics:
  - `toLowerCase` covers ASCII letters only;
  - lengths count characters, not UTF-16 code units;
  - `String(text)` on a non-string is not modelled;
  - null, undefined and "" are one value "".
- RedeemForm.FetchFrom: termination of the page loop is assumed through `PagesBounded`, which says no page claims more pages than some bound. A vendor reporting ever-growing `last_page` values would loop forever in the source. An absent `last_page` is modelled as 0, which `|| 1` turns into 1.
- CustomSendForm.CustomSendForm.Submit: a missing `ref_id` renders as "undefined" in the source status text. The model renders it as "".
- RedeemForm.SingleItem: the single-redeem result row spreads the whole reply (`...data`). The model keeps only the amount and the balance, with index 0.
- GiftCardSender.GiftCardSender.FetchBalance: the balance figures are kept as the strings the server sends, not as `parseFloat` results.
