# Booyah tournaments: a verified model of the client core

Booyah is a single-page client for Free Fire esports tournaments. A player
signs in or registers, browses and searches the tournament catalog, joins an
upcoming tournament by paying its entry fee out of the session balance,
deposits money through a simulated UPI payment, and asks an AI coach for map
strategy. An admin (any account whose email contains `admin`) also adds and
deletes tournaments, edits the payment settings and the announcement, and
switches maintenance mode on and off.

This project models the state and handlers behind those screens in Dafny.
Each React component becomes a `class` whose fields are the component's
`useState` slots and whose methods are its handlers. Props come in as method
parameters, and callbacks to the parent (`onJoinSuccess`, `onLogin`) come back
as `Option` results. The pure logic becomes functions with lemmas about them:

- entry-fee parsing;
- the affordability test;
- the registrant count update;
- the title search;
- the ledger balance;
- e-mail lookup and the role rule;
- map detection in the chat.

Modules:

- `Types` (types.ts): the entities `User`, `Tournament`, `Transaction` and
  `AdminSettings`, and the enumerations. The source field `map` is called
  `gameMap` because `map` is a Dafny keyword.
- `Text`: ASCII `toLowerCase`, `includes`, and the emptiness test of `trim`
  over the full white-space set.
- `Seqs`: `Array.prototype.filter` and `Array.prototype.find`, with their
  properties.
- `Decimal`: digit strings, `parseInt` of a digit-only string, and the
  integer subset of `Number()`.
- `Fixtures` (constants.tsx): the seed catalog.
- `App` (App.tsx): the application shell. This covers session login and
  logout, the active tab, the catalog, the search, the admin settings, the
  join handler and the screen-gating rules.
- `TournamentCard` (components/TournamentCard.tsx): fee parsing, the
  affordability test, and the join dialog.
- `JoinFlow`: the card and the shell wired together, plus the seed-catalog
  scenarios.
- `Wallet` (components/Wallet.tsx): the four-step deposit flow and the
  ledger balance.
- `Auth` (components/Auth.tsx): the sign-in / register form over the stored
  user collection.
- `Admin` (components/AdminPanel.tsx): the new-tournament form, catalog
  deletion and the settings edits.
- `AIStrategyChat` (components/AIStrategyChat.tsx): the chat's message
  list, its send guard and its map detection.

Two behaviours of the code are worth stating plainly, because a reader
might expect otherwise:

- **Fees with no digits.** A fee text with no digits that is not "free" (for
  example "TBD") gives `NaN` from `parseInt` (components/TournamentCard.tsx,
  line 25). Every comparison with `NaN` is false, so `canAfford` is false and
  such a tournament can never be joined; there is no fallback to 0.
  `TournamentCard.EntryFeeDefined` and `JoinFlow.UndefinedFeeExamples` state this.
- **Deposits and the session balance.** A settled wallet deposit only
  prepends an entry to the wallet screen's own ledger
  (components/Wallet.tsx, lines 25-35); the wallet has no access to the
  signed-in user, so `currentUser.balance` is never credited.
  `Wallet.Wallet.PaymentSettled` touches only the ledger.

## Model

| member | source | states |
|---|---|---|
| App.Debited | App.tsx:49 | the updated user's balance is the old balance minus the fee, with no lower bound; every other field is unchanged |
| App.Registered | App.tsx:55-60 | the catalog update keeps the catalog's length |
| App.RegisteredAt | App.tsx:55-60 | an entry with another id is unchanged; an entry with the id gets min(maxTeams, registeredTeams + 1) registrants and keeps its other fields |
| App.RegisteredWithinCapacity | App.tsx:57 | the new count never exceeds maxTeams; a full tournament stays at maxTeams; a tournament with room gains exactly one registrant |
| App.RegisteredKeepsCapacity | App.tsx:55-60 | if no tournament is over capacity before the update, none is after it |
| App.RegisteredUnknownId | App.tsx:55-60 | joining an id not in the catalog leaves the catalog unchanged |
| App.FilteredExactly | App.tsx:66-68 | a tournament is in the search result iff it is in the catalog and its lower-cased title contains the lower-cased query; it appears exactly as often as in the catalog, and in catalog order |
| App.FilteredEmptyQuery | App.tsx:66-68 | an empty search shows the whole catalog |
| App.Render | App.tsx:77-240 | the sign-in form shows iff nobody is signed in; the maintenance notice shows iff a non-admin is signed in while maintenance is on; each admin view shows iff an admin has that tab open |
| App.App.constructor | App.tsx:14-31 | the initial state: the restored user (if any), the dashboard tab, the seed catalog, an empty search and the default settings |
| App.App.HandleLogin | App.tsx:33-37 | the user becomes the session and the dashboard tab opens |
| App.App.HandleLogout | App.tsx:39-43 | the session is cleared, the dashboard tab is selected and the sign-in form shows |
| App.App.SetActiveTab | App.tsx:99 | the sidebar selects the tab |
| App.App.SetSearchQuery | App.tsx:122 | the search field sets the query |
| App.App.HandleJoinTournament | App.tsx:45-64 | with nobody signed in nothing changes; otherwise the fee is deducted unchecked and the tournament with the id gains a registrant up to its capacity |
| TournamentCard.EntryFeeFreeAnyCase | components/TournamentCard.tsx:25 | every spelling of "free" in any mix of upper and lower case is a zero fee |
| TournamentCard.EntryFeeDefined | components/TournamentCard.tsx:25 | a fee text other than "free" has a numeric value iff it contains a digit, and that value is the number its digits spell in order |
| TournamentCard.EntryFeeZeroPadded | components/TournamentCard.tsx:25 | a rupee sign, a leading zero and the decimal digits of n still parse to n ("₹0100" is 100) |
| TournamentCard.EntryFeeOfRupees | components/TournamentCard.tsx:25 | a rupee sign followed by the decimal digits of n parses to n |
| TournamentCard.ConfirmOutcome | components/TournamentCard.tsx:26-41 | a join is requested iff the fee parses and the balance (0 when nobody is signed in) covers it; the request carries the tournament's id and the parsed fee |
| TournamentCard.TournamentCard.constructor | components/TournamentCard.tsx:13-14 | the dialog starts closed and no error is shown |
| TournamentCard.TournamentCard.HandleJoinClick | components/TournamentCard.tsx:29-34 | the dialog opens and the error clears iff the tournament is upcoming and not full; otherwise nothing changes |
| TournamentCard.TournamentCard.CloseDialog | components/TournamentCard.tsx:116 | the dialog closes |
| TournamentCard.TournamentCard.ConfirmJoin | components/TournamentCard.tsx:36-43 | a refused confirmation sets the insufficient-balance error and keeps the dialog open; an accepted one asks the parent to join and closes the dialog |
| JoinFlow.FreeFeeExamples | components/TournamentCard.tsx:25 | "Free" and "FREE" are zero fees |
| JoinFlow.ThousandFeeExample | components/TournamentCard.tsx:25 | "₹1,000" is a fee of 1000 |
| JoinFlow.UndefinedFeeExamples | components/TournamentCard.tsx:25 | "TBD" and "Free entry" have no numeric fee |
| JoinFlow.ConfirmedJoinKeepsBalance | components/TournamentCard.tsx:26-41 | a join the card requests never drives a non-negative balance below zero |
| JoinFlow.ConfirmedJoinEffect | components/TournamentCard.tsx:29-43 | for an open tournament, a confirmed join deducts exactly the fee and adds exactly one registrant; the card refuses iff the user cannot afford the fee |
| JoinFlow.SeedCatalogOpen | constants.tsx:4-47 | the first seed tournament (ongoing, full) cannot be opened; the other two can |
| JoinFlow.SeedCatalogFees | constants.tsx:4-47 | the second seed tournament is free and the third costs 100 |
| JoinFlow.ScenarioTooPoor | components/TournamentCard.tsx:36-40 | a balance of 50 is refused for the 100-rupee tournament |
| JoinFlow.ScenarioFree | App.tsx:45-60 | with a balance of 0 the free tournament is joined, the balance stays 0 and the registrant count goes from 12 to 13 |
| JoinFlow.ConfirmOnCard | components/TournamentCard.tsx:36-43 | a refused confirmation sets the error, keeps the dialog as it was and leaves the session and catalog alone; an accepted one closes the dialog, keeps the error text, and either changes nothing without a session or debits the fee and registers; a non-negative balance stays non-negative; other shell state is untouched |
| Wallet.Signed | components/Wallet.tsx:43 | an unsettled entry contributes 0, a settled deposit or win adds its amount, and a settled entry fee subtracts it |
| Wallet.FoldShift | components/Wallet.tsx:43 | the reduce's start value only shifts its result |
| Wallet.BalancePrepend | components/Wallet.tsx:43 | the empty ledger shows 0; an entry in front adds its contribution |
| Wallet.BalanceConcat | components/Wallet.tsx:43 | the balance of two ledgers laid end to end is the sum of their balances |
| Wallet.InitialBalance | components/Wallet.tsx:12-15 | the starting ledger shows 450 |
| Wallet.DepositRaisesBalance | components/Wallet.tsx:26-33 | a settled deposit of a in front raises the balance by exactly a |
| Wallet.AcceptedExamples | components/Wallet.tsx:18 | the empty amount and "ten" are refused; "0" and "-5" are accepted |
| Wallet.QuickPickAccepted | components/Wallet.tsx:68-71 | every quick-pick amount passes the guard and reads back as itself |
| Wallet.Wallet.constructor | components/Wallet.tsx:10-15 | an empty amount, the input step and the starting ledger |
| Wallet.Wallet.SetAmount | components/Wallet.tsx:62 | typing sets the amount |
| Wallet.Wallet.QuickPick | components/Wallet.tsx:68-71 | a quick pick sets the amount to that value's decimal text |
| Wallet.Wallet.HandleDeposit | components/Wallet.tsx:17-20 | the flow moves to the payment step iff the amount is non-empty and numeric |
| Wallet.Wallet.SimulatePayment | components/Wallet.tsx:22-23 | the flow moves to verification |
| Wallet.Wallet.Cancel | components/Wallet.tsx:107 | the payment step goes back to the input step |
| Wallet.Wallet.PaymentSettled | components/Wallet.tsx:25-35 | exactly one settled deposit of the amount goes in front of the ledger, the balance rises by that amount, and the flow reports success |
| Wallet.Wallet.GoBack | components/Wallet.tsx:134 | back to the input step with an empty amount |
| Wallet.DepositScenario | components/Wallet.tsx:22-35 | a quick-pick deposit of 200 from a fresh screen ends in success with balance 650 |
| Decimal.ParseDigits | components/TournamentCard.tsx:25 | parseInt of a digit string has no value iff the string is empty |
| Decimal.ToDecimalRoundTrip | components/Wallet.tsx:71 | toString of a natural is a non-empty digit string that reads back as the same number |
| Decimal.LeadingZero | components/TournamentCard.tsx:25 | leading zeros do not change the value of a digit string |
| Decimal.NumberOf | components/Wallet.tsx:18 | Number("") is 0, and Number of a digit string is the number its digits spell |
| Decimal.NumberOfToDecimal | components/Wallet.tsx:71 | Number of the decimal text of n is n |
| Decimal.NumberOfNegative | components/Wallet.tsx:18 | Number of "-" followed by the decimal text of n is -n |
| Text.Lower | App.tsx:67 | toLowerCase keeps the length and lower-cases each character |
| Text.IncludesIff | App.tsx:67 | includes holds iff the needle occurs at some position |
| Text.IncludesEmpty | App.tsx:67 | every string includes the empty string |
| Seqs.Filter | App.tsx:66-68 | filter never grows the list and keeps only elements that pass |
| Seqs.FilterMembership | App.tsx:66-68 | an element is kept iff it was present and passes |
| Seqs.FilterCount | components/AdminPanel.tsx:230 | a passing element keeps its multiplicity; a failing one has none |
| Seqs.FilterSubsequence | App.tsx:66-68 | filter keeps the original order |
| Seqs.FilterKeepsAll | App.tsx:66-68 | when every element passes, filter is the identity |
| Seqs.FilterPrepend | components/TournamentCard.tsx:25 | filtering an element in front filters it and the rest separately |
| Auth.FindByEmail | components/Auth.tsx:26 | the lookup yields the first user with exactly that email, and none when no user has it |
| Auth.FoundIffTaken | components/Auth.tsx:26-34 | sign-in finds a user iff registration would call the email taken |
| Auth.NewUser | components/Auth.tsx:39-47 | a new user has the given fields, a zero balance, the admin role iff the email contains "admin", and the dicebear avatar |
| Auth.RegisterThenFind | components/Auth.tsx:34-51 | registering a new email keeps emails unique and a later sign-in finds the new user |
| Auth.RegisterKeepsUnique | components/Auth.tsx:34-49 | appending a user whose email is not taken keeps the stored emails unique |
| Auth.FindAfterNew | components/Auth.tsx:26-49 | a lookup of an email no stored user has finds the user appended after them |
| Auth.FindUnique | components/Auth.tsx:26 | with unique emails, the lookup finds the one user with that email |
| Auth.RoleExamples | components/Auth.tsx:45 | "admin@test.com" registers an admin, "player@test.com" a player |
| Auth.AuthForm.constructor | components/Auth.tsx:10-15 | sign-in mode with empty fields and no error |
| Auth.AuthForm.ToggleMode | components/Auth.tsx:155 | switches between sign-in and registration |
| Auth.AuthForm.SetFields | components/Auth.tsx:92-138 | typing sets the four fields |
| Auth.AuthForm.HandleSubmit | components/Auth.tsx:17-53 | sign-in yields the found user or the credentials error; registration refuses a taken email, or stores one new user at the end and yields it; stored emails stay unique |
| Admin.NewTournament | components/AdminPanel.tsx:34-41 | the new tournament takes the form's title, map and prize pool, the fixed description "Newly created tournament by Admin.", the Admin organizer, the given date, banner and id, and the form's fixed defaults |
| Admin.NewTournamentJoinable | components/AdminPanel.tsx:14-22 | a tournament built from the form is free and open for joining |
| Admin.RemoveByIdExactly | components/AdminPanel.tsx:230 | after a delete no entry carries the id, and every other entry is kept, as often as before and in order |
| Admin.ToggledMaintenance | components/AdminPanel.tsx:356 | the switch flips maintenance and changes nothing else |
| Admin.ToggleTwice | components/AdminPanel.tsx:356 | switching twice restores the settings |
| Admin.ToggleFlipsMaintenanceScreen | App.tsx:84 | for a non-admin the switch flips whether the maintenance notice shows; an admin never sees it |
| Admin.AdminPanel.constructor | components/AdminPanel.tsx:13-22 | the overview sub-tab and the default form |
| Admin.AdminPanel.SetSubTab | components/AdminPanel.tsx:52-76 | selects the sub-tab |
| Admin.AdminPanel.SetDraftTitle | components/AdminPanel.tsx:160 | sets the form's title |
| Admin.AdminPanel.SetDraftMap | components/AdminPanel.tsx:168 | sets the form's map |
| Admin.AdminPanel.SetDraftPrizePool | components/AdminPanel.tsx:179 | sets the form's prize pool |
| Admin.AdminPanel.HandleAddTournament | components/AdminPanel.tsx:32-45 | an empty title changes nothing; otherwise the new tournament goes in front of the catalog, the form resets and the tournaments sub-tab opens |
| Admin.AdminPanel.DeleteTournament | components/AdminPanel.tsx:230 | the catalog loses the entries with the id |
| Admin.AdminPanel.EditUpiId | components/AdminPanel.tsx:265 | sets the UPI id, nothing else |
| Admin.AdminPanel.EditQrCodeUrl | components/AdminPanel.tsx:275 | sets the QR code URL, nothing else |
| Admin.AdminPanel.EditAnnouncement | components/AdminPanel.tsx:339 | sets the announcement, nothing else |
| Admin.AdminPanel.ToggleMaintenance | components/AdminPanel.tsx:356 | flips maintenance mode |
| TournamentCard.EntryFeeNum | components/TournamentCard.tsx:25 | `entryFeeNum`: 0 for "free" in any case, otherwise `parseInt` of the digits; its meaning is stated by `TournamentCard.EntryFeeFreeAnyCase`, `TournamentCard.EntryFeeDefined`, `TournamentCard.EntryFeeOfRupees` and `TournamentCard.EntryFeeZeroPadded` |
| TournamentCard.BalanceOrZero | components/TournamentCard.tsx:26 | the balance of the user, or 0 when nobody is signed in; used by `TournamentCard.ConfirmOutcome`, whose contract states the test |
| TournamentCard.CanAfford | components/TournamentCard.tsx:26 | `canAfford`: the fee parsed and the balance covers it; `TournamentCard.ConfirmOutcome` requests a join iff it holds |
| TournamentCard.IsFull | components/TournamentCard.tsx:27 | `isFull`: registrants at or above capacity; `TournamentCard.TournamentCard.HandleJoinClick` states its effect |
| TournamentCard.CanOpen | components/TournamentCard.tsx:29-31 | the dialog may open: upcoming and not full; `TournamentCard.TournamentCard.HandleJoinClick` opens it iff this holds |
| App.Bumped | App.tsx:57 | one registrant more, capped at capacity; stated by `App.RegisteredAt` and `App.RegisteredWithinCapacity` |
| App.TitleMatches | App.tsx:67 | the lower-cased title includes the lower-cased query; `App.FilteredExactly` states the search through it |
| App.Filtered | App.tsx:66-68 | `filteredTournaments`; stated by `App.FilteredExactly` and `App.FilteredEmptyQuery` |
| App.IsAdmin | App.tsx:82 | `isAdmin`: the role is admin; `App.Render` states the gating through it |
| Wallet.Apply | components/Wallet.tsx:43 | one step of the balance's reduce; `Wallet.Signed` states its effect |
| Wallet.Fold | components/Wallet.tsx:43 | the reduce from the first entry to the last; `Wallet.FoldShift` relates it to the balance |
| Wallet.Balance | components/Wallet.tsx:43 | the displayed total; stated by `Wallet.BalancePrepend`, `Wallet.BalanceConcat` and `Wallet.InitialBalance` |
| Wallet.Accepted | components/Wallet.tsx:18 | the deposit guard; stated by `Wallet.AcceptedExamples` and `Wallet.QuickPickAccepted` |
| Auth.EmailTaken | components/Auth.tsx:34 | `users.some(u => u.email === email)`; `Auth.FoundIffTaken` ties it to the lookup |
| Admin.RemoveById | components/AdminPanel.tsx:230 | the delete's filter; stated by `Admin.RemoveByIdExactly` |
| AIStrategyChat.Mentions | components/AIStrategyChat.tsx:29 | the lower-cased message includes the lower-cased map name; `AIStrategyChat.DetectMap` states detection through it |
| Text.Includes | App.tsx:67 | `includes`; `Text.IncludesIff` states it as an occurrence at some position |
| Text.IsBlank | components/AIStrategyChat.tsx:21 | `!input.trim()`: only ECMAScript white space and line terminators (ASCII ones, no-break space, byte order mark, Unicode space separators, line and paragraph separators); `AIStrategyChat.StrategyChat.Send` refuses exactly such input |
| Text.BlankExamples | components/AIStrategyChat.tsx:21 | a message of no-break, ideographic and ASCII spaces and a line separator is blank; " a " is not |
| Decimal.DigitsValue | components/TournamentCard.tsx:25 | the value of a digit string read left to right; stated by `Decimal.ToDecimalRoundTrip` and `Decimal.LeadingZero` |
| Decimal.ToDecimal | components/Wallet.tsx:71 | `toString` of a natural; `Decimal.ToDecimalRoundTrip` states that it reads back as the number |
| Seqs.FirstWhere | components/AIStrategyChat.tsx:29 | find yields the position of the first element that passes the test, and none when no element passes |
| Seqs.FirstWhereNotLater | components/AIStrategyChat.tsx:29 | in a sequence without repeats, an element after one that passes is never the one found |
| AIStrategyChat.DetectMap | components/AIStrategyChat.tsx:29-30 | Bermuda when no map is named; otherwise the first named map in enumeration order |
| AIStrategyChat.EnumOrderWins | components/AIStrategyChat.tsx:29 | of two named maps, the later one in the enumeration is never chosen, whatever their order in the message |
| AIStrategyChat.AppendKeepsAlternating | components/AIStrategyChat.tsx:25-32 | a player message while idle or a coach message while loading keeps the turns alternating |
| AIStrategyChat.StrategyChat.constructor | components/AIStrategyChat.tsx:7-11 | only the welcome message, an empty input and no request in flight |
| AIStrategyChat.StrategyChat.SetInput | components/AIStrategyChat.tsx:83 | typing sets the input |
| AIStrategyChat.StrategyChat.Send | components/AIStrategyChat.tsx:20-30 | a blank input or a request in flight changes nothing; otherwise the player's message is appended, the input clears, loading starts and advice is asked for the detected map |
| AIStrategyChat.StrategyChat.Reply | components/AIStrategyChat.tsx:32-33 | the coach's answer is appended and loading stops |
| AIStrategyChat.StrategyChat.SendAndWait | components/AIStrategyChat.tsx:20-34 | an accepted send grows the list by exactly the player's message and the answer for the detected map with the aggressive style |

## Left out

- Persistence: localStorage and JSON are not modelled. The restored session
  is the `App` constructor's parameter, and the stored users are a field of
  `AuthForm`. The write-backs after login, a join and a registration are not
  modelled.
- Randomness and the clock: `Math.random` ids and banners and today's date
  from `Date` are method parameters.
- Timing: the wallet's `setTimeout` delay is not modelled, and neither is
  the stale `transactions` closure it captures.
  `Wallet.Wallet.PaymentSettled` is the callback applied to the state at
  the time it runs. The chat's `await` is `Send` followed by `Reply`, and
  interleavings with other events are not modelled.
- Decimal.NumberOf: models `Number()` only on the empty string and an
  optional sign followed by decimal digits. Fractions, exponents,
  surrounding whitespace, hex and `Infinity` are treated as not numeric,
  because the model has no floating point.
- Decimal.ParseDigits: exact for any digit string. The precision loss of
  JavaScript numbers beyond 2^53 is not modelled.
- Text.Lower: ASCII case folding only. Unicode case mapping is not
  modelled.
- Not part of this model:
  - the Leaderboard and Sidebar components (presentational);
  - services/geminiService.ts, which appears only as the opaque `ask`
    function;
  - rendering, CSS, `toFixed` formatting and `alert`;
  - `onView`;
  - the static stats tiles.
- Types: the optional user fields `points`, `matchesPlayed` and
  `totalKills`, and the transaction `date` and `user`, are not modelled.
  No modelled handler reads or writes them.
- Chat scrolling on new messages is not modelled.
- Component lifetime: each class models one mount of its component, while
  React discards a component's state when it unmounts. App.tsx mounts the
  wallet only while its tab is open (lines 203-205), so leaving the tab
  discards the ledger, and the next visit re-seeds it at 450. A deposit
  still verifying when the user leaves is never recorded, because its timer
  callback updates an unmounted component. The model offers no operation
  that leaves the verifying step, so it does not show this loss. The chat
  is mounted separately on the dashboard and on the strategy tab, so the
  two hold separate message lists; each `StrategyChat` object is one of
  them.
- App.Render: a tab name the shell does not know renders as
  `NoContent`. Only the gating of the sign-in form, the maintenance notice
  and the admin views is stated.
