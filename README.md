# Paymesh: waitlist form, wallet modal, transaction pager and AutoShare contract scenarios

This project models four parts of Paymesh in Dafny and proves properties of each.

- **Waitlist hero form** (`WaitlistHeroSection.tsx`):
  - the e-mail check `validateEmail`, read as the regular expression `^[^\s@]+@[^\s@]+\.[^\s@]+$`;
  - the `submit` handler, with its required, invalid, success and failure branches;
  - the input's `onChange` reset.
- **Stellar wallet modal** (`StellarWalletModal.tsx`):
  - `handleConnect`: the in-flight guard, the extraction of an error message from any thrown value, the choice of error toast by priority, and the `finally` reset;
  - each wallet button's label and its disabled rule.
- **Transactions pager** (`Pagination.tsx`): the clamped Prev and Next steps.
- **AutoShare Soroban contract**, as its tests fix it: a mock token (initialize, mint, transfer), paginated group listings (all groups, and by creator), and fundraising (status, contribute, contribution logs, member earnings).

Module layout:

- `Text`: JavaScript `trim` and `includes` over `string`, using the ECMAScript white-space set.
- `Waitlist`: the e-mail validator and the `WaitlistForm` class, with fields `email`, `loading`, `status` and `err`.
- `WalletModal`: thrown values, message extraction, failure classification, toast texts, the `Modal` class with field `connecting`, and button views.
- `TransactionPagination`: the Prev and Next steps.
- `MockToken`: the `Token` class. Its invariant is that the total supply equals the sum of balances.
- `AutoShare`:
  - groups and group pages;
  - fundraising configurations and contributions;
  - member earnings, with the sharing of a contribution among members;
  - the `Contract` class, which holds the contract's storage.
- `AutoShareTests`: the contract's test scenarios, replayed against `Contract`.

Each front-end scenario is stated as a `Replay…` method. The front end has no tests, so these are illustrations. Each one's `ensures` gives the values the user sees.

Some of the code's behaviour differs from a plain reading of the components. The model follows the code:

- **Truthiness.** Both the guard on `connecting` and the `disabled` attribute test JavaScript truthiness, not "is set". An empty wallet id therefore does not block a second click. `Truthy` states this.
- **Submit is atomic.** `submit` awaits the handler. The model treats the call as one step, and the handler's outcome is a parameter: none, resolves, or rejects.
- **Timeout message.** The 15-second race rejects with `Error("Connection timeout")`. The model proves that this error gets the "timed out" toast.

## Model

| member | source | states |
|---|---|---|
| Text.TrimEmptyIffBlank | frontend/src/app/landing/components/WaitlistHeroSection.tsx:23 | `email.trim()` is empty exactly when every character of the e-mail is ECMAScript white space (both directions) |
| Text.TrimStart | frontend/src/app/landing/components/WaitlistHeroSection.tsx:23 | the kept part is a suffix of the input that does not start with white space, and the dropped prefix is all white space |
| Text.TrimEnd | frontend/src/app/landing/components/WaitlistHeroSection.tsx:23 | the kept part is a prefix of the input that does not end with white space, and the dropped suffix is all white space |
| Text.Trim | frontend/src/app/landing/components/WaitlistHeroSection.tsx:23 | `trim()` leaves a piece of the input with only white space before and after it, and the piece neither starts nor ends with white space |
| Text.TrimKeeps | frontend/src/app/landing/components/WaitlistHeroSection.tsx:23 | a string holding any non-white-space character does not trim to empty |
| Text.Includes | frontend/src/components/StellarWalletModal.tsx:98-106 | `includes` is true exactly when the substring occurs at some index |
| Text.MissingCharExcludes | frontend/src/components/StellarWalletModal.tsx:98-106 | a string lacking one of the substring's characters does not include the substring |
| Waitlist.Occurrences | frontend/src/app/landing/components/WaitlistHeroSection.tsx:7 | the count of a character is at most the length, and it is zero exactly when the character is absent |
| Waitlist.IndexOf | frontend/src/app/landing/components/WaitlistHeroSection.tsx:7 | the result is the first index holding the character, or the length when it is absent |
| Waitlist.OccurrencesAppend | frontend/src/app/landing/components/WaitlistHeroSection.tsx:7 | counting a character distributes over concatenation |
| Waitlist.ValidateEmail | frontend/src/app/landing/components/WaitlistHeroSection.tsx:7 | definition, no contract: the executable check. Its meaning is stated by ValidateEmailMatchesPattern |
| Waitlist.ValidateEmailMatchesPattern | frontend/src/app/landing/components/WaitlistHeroSection.tsx:7 | the executable check accepts a string exactly when it matches `^[^\s@]+@[^\s@]+\.[^\s@]+$`: a non-empty local part, one `@`, and a domain with a dot that has non-empty text on both sides, with no white space and no second `@` anywhere |
| Waitlist.ValidateEmailSplits | frontend/src/app/landing/components/WaitlistHeroSection.tsx:7 | an accepted address splits into the three parts the pattern requires |
| Waitlist.PatternValidates | frontend/src/app/landing/components/WaitlistHeroSection.tsx:7 | any split that matches the pattern makes the check accept |
| Waitlist.ValidEmailNotBlank | frontend/src/app/landing/components/WaitlistHeroSection.tsx:23-28 | an address that passes the pattern never reaches the "required" branch |
| Waitlist.AcceptedExample | frontend/src/app/landing/components/WaitlistHeroSection.tsx:7 | `dev@pay.mesh.io` is accepted |
| Waitlist.DotlessRefused | frontend/src/app/landing/components/WaitlistHeroSection.tsx:7 | an address with no dot anywhere is refused, because the pattern needs a `.` after the `@` |
| Waitlist.RefusedExample | frontend/src/app/landing/components/WaitlistHeroSection.tsx:7 | `dev@paymesh`, which has no dot after the `@`, is refused |
| Waitlist.WaitlistForm.constructor | frontend/src/app/landing/components/WaitlistHeroSection.tsx:16-19 | the form starts with an empty e-mail, not loading, and idle with no error |
| Waitlist.WaitlistForm.Submit | frontend/src/app/landing/components/WaitlistHeroSection.tsx:21-45 | blank input gives error "Email address is required"; a malformed address gives "Please enter a valid email address"; in both cases nothing is sent and the e-mail is kept. A valid address is sent to the handler, if there is one. When the handler rejects, the status is error "Unable to submit. Please try again." and the e-mail is kept. Otherwise the status is success and the e-mail is cleared, while the error text is left as it was. Loading ends false whenever the handler was reached, and the early returns leave it untouched |
| Waitlist.WaitlistForm.Edit | frontend/src/app/landing/components/WaitlistHeroSection.tsx:108-112 | typing stores the new value, resets the status to idle and clears the error |
| Waitlist.ReplaySubmitBlank | frontend/src/app/landing/components/WaitlistHeroSection.tsx:23-27 | a form holding only spaces shows the "required" error and sends nothing |
| Waitlist.ReplaySubmitMalformed | frontend/src/app/landing/components/WaitlistHeroSection.tsx:28-32 | `dev@paymesh` shows the "valid email" error and sends nothing |
| Waitlist.ReplaySubmitRetry | frontend/src/app/landing/components/WaitlistHeroSection.tsx:33-44 | a rejected send keeps the address and shows the failure message; a retry that resolves sends the same address, shows success and clears the field |
| WalletModal.Decimal | frontend/src/components/StellarWalletModal.tsx:95 | `String(n)` of a non-negative integer is a non-empty run of digits without a leading zero, and those digits denote `n` |
| WalletModal.Stringify | frontend/src/components/StellarWalletModal.tsx:95 | `String` of a string is itself. `String` of an integer is its canonical numeral: a non-empty digit run without a leading zero, after a `-` when negative, whose digits denote the absolute value |
| WalletModal.ExtractMessage | frontend/src/components/StellarWalletModal.tsx:84-96 | an `Error` gives its message and a string gives itself; an object with a `message` property gives `String` of that property; anything else gives "Failed to connect" |
| WalletModal.Classify | frontend/src/components/StellarWalletModal.tsx:98-109 | the toast is chosen by priority: "rejected" first, then "timeout", then "not connected" or "not found", and otherwise the generic case carrying the message; each case holds exactly under its condition (both directions) |
| WalletModal.ToastText | frontend/src/components/StellarWalletModal.tsx:99-108 | definition, no contract: the toast text for each failure. Its properties are stated by ToastTextIdentifiesFailure |
| WalletModal.ToastTextIdentifiesFailure | frontend/src/components/StellarWalletModal.tsx:98-109 | each toast is one of the three fixed texts or starts with "Connection failed: ", and different failures show different toasts |
| WalletModal.TimeoutErrorIsTimedOut | frontend/src/components/StellarWalletModal.tsx:74-101 | the error raised by the 15-second timeout shows "Connection timed out. Please try again." |
| WalletModal.SettledFor | frontend/src/components/StellarWalletModal.tsx:78-109 | a connection that succeeds means success and close. A throw shows the toast picked from the extracted message by the first `includes` test that holds: "rejected", then "timeout", then "not connected" or "not found", otherwise "Connection failed: " followed by the message |
| WalletModal.Truthy | frontend/src/components/StellarWalletModal.tsx:69 | definition, no contract: JavaScript truthiness of `connecting`, where null and the empty string are falsy |
| WalletModal.Modal.constructor | frontend/src/components/StellarWalletModal.tsx:48 | the modal starts with no connection in flight |
| WalletModal.Modal.BeginConnect | frontend/src/components/StellarWalletModal.tsx:68-71 | a click starts a connection exactly when `connecting` is not truthy, and records the wallet id; otherwise nothing changes |
| WalletModal.Modal.FinishConnect | frontend/src/components/StellarWalletModal.tsx:78-112 | the settled outcome is shown and `connecting` is reset to null on every path |
| WalletModal.Modal.HandleConnect | frontend/src/components/StellarWalletModal.tsx:68-113 | while a connection is in flight a click does nothing; otherwise the outcome is shown and `connecting` ends null |
| WalletModal.Label | frontend/src/components/StellarWalletModal.tsx:179-181 | definition, no contract: "CONNECTING..." for the wallet being connected, otherwise the wallet's name. Stated by InFlightView and IdleView |
| WalletModal.Disabled | frontend/src/components/StellarWalletModal.tsx:155 | definition, no contract: `!!connecting`, the same for every button. Stated by InFlightView and IdleView |
| WalletModal.InFlightView | frontend/src/components/StellarWalletModal.tsx:155-181 | while one wallet connects, every button is disabled and exactly that wallet's button reads "CONNECTING..." |
| WalletModal.IdleView | frontend/src/components/StellarWalletModal.tsx:155-181 | with nothing in flight, every button is enabled and shows its wallet's name |
| WalletModal.ReplayConnectSession | frontend/src/components/StellarWalletModal.tsx:68-113 | a second click during a connection is ignored; the in-flight button reads "CONNECTING..." and is disabled; a timeout shows the timed-out toast and frees the modal; a retry that succeeds closes it |
| TransactionPagination.PrevPage | frontend/src/app/user/transactions/components/Pagination.tsx:15 | Prev never goes below page 1; it moves back one page exactly when the current page is above 1 |
| TransactionPagination.NextPage | frontend/src/app/user/transactions/components/Pagination.tsx:25 | Next never goes past the last page; it moves forward one page exactly when the current page is below the last |
| TransactionPagination.StepsStayInRange | frontend/src/app/user/transactions/components/Pagination.tsx:15-25 | from a page in range, both steps stay in range and move in their own direction |
| TransactionPagination.StepsFixedAtEnds | frontend/src/app/user/transactions/components/Pagination.tsx:15-25 | Prev on page 1 and Next on the last page stay put |
| TransactionPagination.StepsUndoEachOther | frontend/src/app/user/transactions/components/Pagination.tsx:15-25 | away from the ends, Next undoes Prev and Prev undoes Next |
| TransactionPagination.NextTimesClamps | frontend/src/app/user/transactions/components/Pagination.tsx:25 | k presses of Next reach `min(totalPages, page + k)` |
| TransactionPagination.PrevTimesClamps | frontend/src/app/user/transactions/components/Pagination.tsx:15 | k presses of Prev reach `max(1, page - k)` |
| MockToken.SumWithout | contract/contracts/hello-world/src/tests/mock_token_test.rs:31-39 | the balance sum splits into one holder's balance plus the sum of the others |
| MockToken.SumUpdate | contract/contracts/hello-world/src/tests/mock_token_test.rs:31-39 | replacing one balance changes the sum by the difference |
| MockToken.Token.Balance | contract/contracts/hello-world/src/tests/mock_token_test.rs:32-38 | the stored balance, 0 for an address never credited, and never negative while the ledger invariant holds |
| MockToken.Token.Initialize | contract/contracts/hello-world/src/tests/mock_token_test.rs:19-28 | initialize stores the admin, decimals, name and symbol; there are no balances and the supply is 0 |
| MockToken.Token.Mint | contract/contracts/hello-world/src/tests/mock_token_test.rs:31-33 | mint raises the recipient's balance and the total supply by the amount; the supply stays the sum of balances |
| MockToken.Token.Transfer | contract/contracts/hello-world/src/tests/mock_token_test.rs:36-39 | transfer moves the amount from one holder to the other; every other balance and the total supply are unchanged |
| MockToken.ReplayMockTokenTest | contract/contracts/hello-world/src/tests/mock_token_test.rs:7-44 | the token reports 7, "Mock Token" and "MOCK"; minting 1000 gives balance 1000 and supply 1000; transferring 200 gives 800 and 200 with supply still 1000 |
| AutoShare.EffectiveLimit | contract/contracts/hello-world/src/tests/pagination_test.rs:48-51 | the limit is the requested one, capped at 20 |
| AutoShare.Paginate | contract/contracts/hello-world/src/tests/pagination_test.rs:32-56 | a page echoes the offset and the capped limit and reports the full total; it holds `min(limit, total - offset)` groups, namely the groups from the offset on, and none past the end |
| AutoShare.PageOffsetIsProduct | contract/contracts/hello-world/src/tests/pagination_test.rs:32-46 | the offset after k pages is k times the limit |
| AutoShare.WalkCoversPrefix | contract/contracts/hello-world/src/tests/pagination_test.rs:32-46 | walking pages at offsets 0, limit, 2 * limit, ... (the test's 0, 10, 20) yields, in order, exactly the first `pages * limit` groups, with no gaps or repeats |
| AutoShare.WalkReachesOffset | contract/contracts/hello-world/src/tests/pagination_test.rs:32-46 | the same walk, measured by the offset reached by repeated addition of the limit |
| AutoShare.CreatedBy | contract/contracts/hello-world/src/tests/pagination_test.rs:70-134 | a group is listed exactly when it exists and has that creator |
| AutoShare.CreatedByAppend | contract/contracts/hello-world/src/tests/pagination_test.rs:70-108 | filtering by creator distributes over groups created one run after another |
| AutoShare.CreatedByUniform | contract/contracts/hello-world/src/tests/pagination_test.rs:70-108 | a run of one creator's groups filters to itself, and to nothing for any other creator |
| AutoShare.GroupsPaginated | contract/contracts/hello-world/src/tests/pagination_test.rs:6-67 | the listing of all groups reports the stored count as total, echoes the offset and the capped limit, and holds `min(limit, total - offset)` groups taken from the offset on (none past the end) |
| AutoShare.GroupsByCreatorPaginated | contract/contracts/hello-world/src/tests/pagination_test.rs:70-134 | the creator listing reports the number of that creator's groups as total, and echoes the offset and the capped limit. It holds `min(limit, total - offset)` of that creator's groups, in creation order from the offset (none past the end). Every group returned exists and has that creator |
| AutoShare.GroupIndex | contract/contracts/hello-world/src/tests/fundraising_contribute_test.rs:25-43 | the result is the position of the first group with the id, or the count of groups when there is none |
| AutoShare.StatusIn | contract/contracts/hello-world/src/tests/fundraising_test.rs:8-19 | a stored configuration is returned as stored; an unknown group reads as target 0, raised 0, inactive |
| AutoShare.ListIn | contract/contracts/hello-world/src/tests/fundraising_test.rs:48-60 | a stored contribution list is returned as stored; an unknown key reads as the empty list |
| AutoShare.Share | contract/contracts/hello-world/src/tests/fundraising_contribute_test.rs:70-71 | definition, no contract: a member's cut of a contribution, `percentage * amount / 100`. Stated by ShareBounds |
| AutoShare.ShareBounds | contract/contracts/hello-world/src/tests/fundraising_contribute_test.rs:70-71 | for a percentage of at most 100 and a non-negative amount, the cut lies between 0 and the amount, and 100 percent gives the whole amount |
| AutoShare.Credit | contract/contracts/hello-world/src/tests/fundraising_contribute_test.rs:59-71 | definition, no contract: each member credited with its share in turn. Stated by CreditPaysShares |
| AutoShare.CreditPaysShares | contract/contracts/hello-world/src/tests/fundraising_contribute_test.rs:59-71 | after a contribution, each listed member's earnings in the group grow by its percentage share of the amount, and every other entry is unchanged |
| AutoShare.Contract.constructor | contract/contracts/hello-world/src/tests/fundraising_test.rs:8-19 | a fresh contract is unpaused and holds no groups, configurations, contributions or earnings |
| AutoShare.Contract.Create | contract/contracts/hello-world/src/tests/fundraising_contribute_test.rs:25-31 | create appends a group with no members; the rest of storage is unchanged |
| AutoShare.Contract.UpdateMembers | contract/contracts/hello-world/src/tests/fundraising_contribute_test.rs:34-43 | the group's member list is replaced and nothing else changes |
| AutoShare.Contract.StartFundraising | contract/contracts/hello-world/src/tests/fundraising_contribute_test.rs:46-47 | the group gets an active campaign with the target and nothing raised |
| AutoShare.Contract.Pause | contract/contracts/hello-world/src/tests/fundraising_contribute_test.rs:183-184 | the contract becomes paused and nothing else changes |
| AutoShare.Contract.Contribute | contract/contracts/hello-world/src/tests/fundraising_contribute_test.rs:59-184 | a paused contract with an active campaign fails with ContractPaused, and an unpaused one without an active campaign fails with FundraisingNotActive; a failure changes nothing. Success happens exactly when the contract is unpaused and the campaign active. It adds the amount to the amount raised, leaves the campaign active exactly while the total stays below the target, pays every member its share, and appends the contribution to the group's log and to the contributor's log |
| AutoShare.Contract.FundraisingStatus | contract/contracts/hello-world/src/tests/fundraising_test.rs:14-18 | `get_fundraising_status`: the stored configuration, or target 0, raised 0, inactive for a group without one |
| AutoShare.Contract.GroupContributions | contract/contracts/hello-world/src/tests/fundraising_test.rs:55-58 | `get_group_contributions`: the stored log of the group, or the empty list |
| AutoShare.Contract.UserContributions | contract/contracts/hello-world/src/tests/fundraising_test.rs:56-59 | `get_user_contributions`: the stored log of the user, or the empty list |
| AutoShare.Contract.MemberEarnings | contract/contracts/hello-world/src/tests/fundraising_contribute_test.rs:68-71 | `get_member_earnings`: the member's stored earnings in the group, or 0 |
| AutoShare.Contract.PutFundraisingConfig | contract/contracts/hello-world/src/tests/fundraising_test.rs:26-38 | the test's direct storage write stores the configuration for the group and nothing else |
| AutoShare.Contract.PutContributionLists | contract/contracts/hello-world/src/tests/fundraising_test.rs:67-100 | the test's direct storage write stores the two logs and nothing else |
| AutoShareTests.TestGroups | contract/contracts/hello-world/src/tests/pagination_test.rs:19-29 | the groups that the test loop creates, in order, one per usage count |
| AutoShareTests.CreateTestGroups | contract/contracts/hello-world/src/tests/pagination_test.rs:19-29 | the loop appends exactly those groups to storage and leaves the pause flag, campaigns, earnings and both contribution logs unchanged |
| AutoShareTests.TwoRunsByCreator | contract/contracts/hello-world/src/tests/pagination_test.rs:70-108 | after two creators' runs, each creator's filter is its own run, and a third creator's filter is empty |
| AutoShareTests.GroupWithMembers | contract/contracts/hello-world/src/tests/fundraising_contribute_test.rs:18-43 | the test's setup leaves one group with the given members and empty fundraising storage |
| AutoShareTests.ReplayGroupsPaginated | contract/contracts/hello-world/src/tests/pagination_test.rs:6-57 | with 25 groups: pages of sizes 10, 10 and 5 at offsets 0, 10 and 20; a request for 50 is capped at 20; an offset past the end gives no groups with total 25 |
| AutoShareTests.ReplayGroupsPaginatedEmpty | contract/contracts/hello-world/src/tests/pagination_test.rs:60-67 | with no groups, the page is empty with total 0 |
| AutoShareTests.ReplayGroupsByCreatorPaginated | contract/contracts/hello-world/src/tests/pagination_test.rs:70-135 | creator 1 has 15 groups, paged as 10 then 5; creator 2 has 10, with a first page of 5; a request for 50 gives 15 with limit 20; an unknown creator gets none |
| AutoShareTests.ReplayContributeSuccess | contract/contracts/hello-world/src/tests/fundraising_contribute_test.rs:7-82 | 500 toward a target of 1000 leaves the campaign active with 500 raised; the 60/40 members earn 300 and 200; each log holds the one contribution |
| AutoShareTests.ReplayContributeCompletes | contract/contracts/hello-world/src/tests/fundraising_contribute_test.rs:85-128 | contributing the full target closes the campaign with 1000 raised |
| AutoShareTests.ReplayContributeNotActive | contract/contracts/hello-world/src/tests/fundraising_contribute_test.rs:131-156 | contributing without a campaign fails with FundraisingNotActive |
| AutoShareTests.ReplayContributePaused | contract/contracts/hello-world/src/tests/fundraising_contribute_test.rs:159-185 | contributing to a paused contract fails with ContractPaused |
| AutoShareTests.ReplayStatusDefault | contract/contracts/hello-world/src/tests/fundraising_test.rs:8-19 | an unknown group reports target 0, raised 0, inactive |
| AutoShareTests.ReplayStatusExisting | contract/contracts/hello-world/src/tests/fundraising_test.rs:22-45 | a stored campaign reports target 1000, raised 500, active |
| AutoShareTests.ReplayContributionsEmpty | contract/contracts/hello-world/src/tests/fundraising_test.rs:48-60 | unknown keys have empty contribution logs |
| AutoShareTests.ReplayContributionsPopulated | contract/contracts/hello-world/src/tests/fundraising_test.rs:63-114 | the stored logs return the contribution with its amount, contributor and group |

## Left out

- The wallet connector library (`frontend/src/hooks/stellar-wallets-kit.ts`) is not part of this model. The outcome of `connectWallet` is a parameter of `HandleConnect`. The wallet id constants are taken to be the distinct, non-empty strings "freighter", "albedo" and "lobstr".
- WalletModal.Modal.HandleConnect: the race between the connection and the 15-second timer is not modelled, because it is concurrency. The model takes the race's outcome as a parameter, and the timer contributes only its `Error("Connection timeout")`.
- Logging to the console, toast rendering, `onClose` propagation, animation, the escape-key handler, body-scroll locking and the portal are presentation. They are left out.
- The randomly placed stars (`genStars`) are presentation driven by `Math.random`, and are left out.
- WalletModal.ExtractMessage: `String(v)` is modelled for strings, booleans, `null`, `undefined`, plain objects, and integers of magnitude at most 2^53. It is not modelled for non-integer numbers, symbols or objects with a custom `toString`.
- WalletModal.Stringify: numbers are limited to integers of magnitude at most 2^53, where `String(n)` is the exact decimal numeral. Larger numbers are left out. JavaScript prints them rounded (2^60 prints as `1152921504606847000`) or in exponent form (`1e+21`). The same limit applies to the digit strings built by Decimal.
- TransactionPagination.PrevPage: pages are integers. JavaScript's floating-point numbers and `NaN` are not modelled.
- Contract authorization, fees, the Soroban environment, the transfer of the contributed tokens and `i128` overflow are left out. Amounts are unbounded integers.
- AutoShare.Contract.Contribute: requires a positive amount on every call, including calls that fail with ContractPaused or FundraisingNotActive. So the model does not say what a zero or negative amount gets, on any path. When the contract is open and the campaign active, it also requires a known group, and a contribution that does not overfund the target. The tests do not fix what happens otherwise.
- AutoShare.Contract.Contribute: when the contract is both paused and has no active campaign, the tests do not fix the order of the two checks. The model states only that one of the two errors is returned.
- AutoShare.Contract.Contribute: the model treats a campaign that has reached its target as not active. A contribution to it fails with FundraisingNotActive, as for a group that never started fundraising. The tests fix that error only for a group without a campaign. They do not fix what happens after a campaign completes.
- AutoShare.Share: the model splits a contribution with floor division. The tests fix only splits that divide exactly, so rounding is not a promise of the source.
- AutoShare.Contract.UpdateMembers: percentages are not checked to sum to 100, because no test fixes that check.
- AutoShare.Contract.Create: requires a fresh group id. The duplicate-id error has no test.
- AutoShare.Contract.StartFundraising: requires a known group without a stored campaign and a positive target. Restarting a campaign and invalid targets are not fixed by the tests.
- MockToken.Token.Transfer: requires an amount within the sender's balance. The insufficient-balance failure is not exercised by the test.
- MockToken.Token.Transfer: requires a non-negative amount. What the token does with a negative transfer is not exercised by the test.
- AutoShare.Contract.UpdateMembers: requires a known group id. Updating the members of a group that does not exist has no test.
- MockToken.Token.Mint: requires a non-negative amount, because negative mints are not exercised.
- AutoShare.Paginate: a limit of 0 follows the same cap formula and yields an empty page. The tests do not fix that case.
- AutoShare.Paginate: the tests fix only the lengths of pages. The model chooses which groups a page holds: a contiguous slice in creation order.
- The test helper `create_test_group` is not part of this model. AutoShareTests.TestGroup gives its groups the empty name and uses the usage count as the id.
