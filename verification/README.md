# Session, validation and ledger core of a React Native finance client

This project is a Dafny model of the parts of the finance app that hold
state or compute something. The rest of the app is presentation and CRUD
forms.

- **Session and credentials.** The device key-value store (AsyncStorage) is
  a class holding a `map<string, string>`. The code has two variants side by
  side, and each is modelled as written over that one store:
  - the access-token-only variant: `AuthProvider`, with its one-shot
    bootstrap check, `login`, `logout` and the five-minute background timer,
    plus `getToken`, `loginUser` and `registerUser`;
  - the access+refresh variant: the credential store (`saveTokens`,
    `getAccessToken`, `getRefreshToken`, `removeTokens`,
    `refreshAccessToken`), the authenticated request wrapper `makeRequest`,
    and the OAuth redirect handler.

  The wrapper attaches `Authorization: Bearer` (section 2.1 of RFC 6750). On
  401 Unauthorized (section 15.5.2 of RFC 9110) it refreshes once and
  retries once. The JWT `exp` claim (section 4.1.4 of RFC 7519) is compared
  in seconds against a millisecond clock.
- **Validators.** The e-mail and password patterns are each stated twice: as
  the set of strings the regular expression matches, and as the scan the
  model runs. The two are proved equal. The sign-in form and the group
  members form gate their requests on them.
- **Ledger.** Covers the type filter, the de-duplication of user ids, the
  id-to-name category table (later entries win), grouping by a date key,
  per-type and per-category sums, and the descending sort of date keys. The
  per-category totals are proved to add up to the total. Grouping is proved
  to be a partition.
- **Status caches and list updates.** Covers the `debt_status_<id>` and
  `goal_status_<id>` overlays, the guarded in-place updates, delete-by-id,
  the status colour tables, and the contribution history's automatic-payment
  toggle.

Network replies, `jwtDecode`, `Linking.parse`, the clock and date keys are
parameters of the operations that use them. Requests are returned as
out-parameters, so their contents can be stated. Timers are explicit events:
`HandleAppStateChange` arms one and `FireTimer` fires it.

The files follow the program's structure:

| file | models |
|---|---|
| `wrappers.dfy` | the `Option` and `Result` types |
| `storage.dfy` | the store, the two credential keys, decimal ids in keys |
| `lists.dfy` | filter, map-where and find-index over sequences |
| `ledger.dfy` | transaction sums, de-duplication, grouping, name tables |
| `token_service.dfy`, `get_token.dfy`, `api_service.dfy`, `auth_service.dfy` | the services |
| `auth_context.dfy` | the session provider |
| `oauth_buttons.dfy` | the OAuth redirect handler |
| `form_validation.dfy` | the two patterns |
| `auth_screen.dfy`, `group_members_screen.dfy`, `transactions_list.dfy`, `transactions_screen.dfy`, `profile_screen.dfy`, `goals_screen.dfy`, `history_expense_screen.dfy` | the screens |

### Behaviour of the session code worth knowing

- `logout` and the bootstrap check remove only `access_token`;
  `refresh_token` stays.
- A failed refresh in `makeRequest` propagates the error. It performs no
  logout.
- The background timer is armed whatever the session status. A second
  background event overwrites the handle without cancelling the earlier
  timer, so two timers can be pending at once.
- The access-token-only variant and the access+refresh variant share no
  code, and the model keeps them apart.

## Model

| member | source | states |
|---|---|---|
| Storage.IntToDecimalInjective | src/screens/ProfileScreen.tsx:74 | distinct ids are written as distinct decimal texts, so per-entity keys never collide |
| Storage.EntityKeyInjective | src/screens/GoalsScreen.tsx:58 | two `<prefix><id>` keys are equal only for equal ids |
| AuthContext.ExpiryBoundary | src/context/AuthContext.tsx:69-72 | a token with `exp*1000 == now` is not expired, one millisecond later it is; a token without `exp` never counts as expired |
| AuthContext.AuthProvider.constructor | src/context/AuthContext.tsx:29-30 | the status starts unknown (`null`), with no timer armed or pending |
| AuthContext.AuthProvider.CheckAuth | src/context/AuthContext.tsx:63-90 | the status becomes `true` exactly for a stored, decodable, unexpired token; no token leaves the store as it was; an expired or undecodable token is removed and nothing else changes |
| AuthContext.AuthProvider.Login | src/context/AuthContext.tsx:92-95 | `access_token` maps to the given token and the status is `true`; no other key changes |
| AuthContext.AuthProvider.Logout | src/context/AuthContext.tsx:97-100 | only `access_token` is removed and the status is `false`; a second call changes nothing |
| AuthContext.AuthProvider.HandleAppStateChange | src/context/AuthContext.tsx:33-47 | `background` arms a new timer due 300000 ms later and keeps earlier ones pending; `active` cancels the held timer; any other state changes nothing |
| AuthContext.AuthProvider.FireTimer | src/context/AuthContext.tsx:36-40 | a due pending timer removes `access_token`, sets the status `false` and is no longer pending; anything else changes nothing; the status never claims a session the store does not back |
| TokenService.RefusalText | src/services/TokenService.ts:45-47 | a non-empty server `message` is used, otherwise the default text |
| TokenService.RefreshRequestBody | src/services/TokenService.ts:29-41 | the request carries the refresh token stored at call time, and there is no request when it is missing or empty |
| TokenService.SaveThenGet | src/services/TokenService.ts:7-20 | after `saveTokens(a, r)` the two getters read `a` and `r` whatever was stored before, and every other key is unchanged |
| TokenService.SaveTokens | src/services/TokenService.ts:7-10 | the store gets exactly the two writes |
| TokenService.GetAccessToken | src/services/TokenService.ts:13-15 | returns the stored access token, or `null` when absent |
| TokenService.GetRefreshToken | src/services/TokenService.ts:18-20 | returns the stored refresh token, or `null` when absent |
| TokenService.RemoveTokens | src/services/TokenService.ts:22-25 | both keys are absent afterwards, every other key is kept, and a second call changes nothing |
| TokenService.RefreshAccessToken | src/services/TokenService.ts:28-56 | no refresh token fails with "Refresh token not found" before any request; a refused, unreadable or unreachable reply fails and leaves the store; an ok reply with both tokens saves the rotated pair and returns exactly the new access token; an ok reply lacking a token fails at the write that rejects it |
| TokenService.AfterFailedRefresh | src/services/TokenService.ts:49-53 | after a failed refresh only the access token can have changed, and only an ok reply lacking just the refresh token changes it (to the new access token, beside the old refresh token) |
| GetToken.GetToken | src/services/GetToken.ts:3-11 | returns the stored access token, `null` when absent or when the read fails, and never changes the store |
| ApiService.WithBearer | src/services/ApiService.ts:11-17 | the caller's options and headers are kept, and `Authorization` is set to `Bearer <token>`, replacing a caller value |
| ApiService.MakeRequest | src/services/ApiService.ts:3-40 | no token means no request and an error; a non-401 reply is returned as is with no refresh; a 401 triggers exactly one refresh and, only if it succeeds, one retry with the new token whose reply is returned whatever it is; a failed refresh is the error, with the store as that refresh left it; at most two requests, all to the same URL with the same options |
| AuthService.KeepReturnedToken | src/services/AuthService.ts:10-16 | returns `access_token` as received; writes it only when non-empty; never writes any other key |
| AuthService.LoginUser | src/services/AuthService.ts:5-17 | the request body is the e-mail and password; a rejected request stores nothing; otherwise the returned token is kept and returned as received |
| AuthService.RegisterUser | src/services/AuthService.ts:19-39 | the request body is the name, surname, e-mail and password; the same store-if-present and return behaviour as login |
| AuthService.AfterReplyEffect | src/services/AuthService.ts:12-14 | a missing or empty token leaves the store unchanged, a present one reads back, and `refresh_token` is never touched |
| OAuthButtons.Normalize | src/components/OAuthButtons.tsx:18-25 | an array contributes its first element, a scalar is used as is, and an empty array or absent parameter gives nothing |
| OAuthButtons.NormalizeFirstWins | src/components/OAuthButtons.tsx:18-20 | an array normalises to its first element, the same as that element given alone |
| OAuthButtons.ReadRedirect | src/components/OAuthButtons.tsx:13-28 | no URL or a falsy `access_token` is not a redirect; tokens are accepted exactly when both normalised values are strings, and they are those values |
| OAuthButtons.AccessWithoutRefreshIsMalformed | src/components/OAuthButtons.tsx:22-39 | an access token without a refresh token is rejected as malformed |
| OAuthButtons.EmptyAccessListIsMalformed | src/components/OAuthButtons.tsx:16-38 | an empty `access_token` array is truthy but yields no string, so it is rejected as malformed |
| OAuthButtons.HandleRedirect | src/components/OAuthButtons.tsx:12-41 | non-redirects do nothing; malformed tokens alert and save nothing; valid tokens are saved and the success alert is shown, or a failed save alerts; the session status is not changed; only the two token keys can change |
| FormValidation.EmailScanMatchesPattern | src/screens/AuthScreen.tsx:29 | the scan accepts exactly `L@D.T` with non-empty parts and no whitespace or second `@` (the domain may hold dots) |
| FormValidation.EmailScanSound | src/screens/AuthScreen.tsx:29 | every address the scan accepts matches the pattern |
| FormValidation.EmailScanComplete | src/screens/AuthScreen.tsx:29 | every address matching the pattern passes the scan |
| FormValidation.EmailExamples | src/screens/AuthScreen.tsx:29 | `a@b.c` is accepted and `a@bc` rejected |
| FormValidation.EmailCounterExamples | src/screens/AuthScreen.tsx:29 | a second `@` or an empty local part is rejected |
| FormValidation.PasswordScan | src/screens/AuthScreen.tsx:39 | the scan succeeds exactly when no character is a line terminator and a capital and a digit occur |
| FormValidation.PasswordScanMatchesPattern | src/screens/AuthScreen.tsx:39 | the password check accepts exactly five or more UTF-16 code units, none a line terminator, with an ASCII capital and an ASCII digit |
| FormValidation.Utf16LengthCountsUnits | src/screens/AuthScreen.tsx:39 | the length the check counts is the number of UTF-16 code units of the string |
| FormValidation.UnitClassIsCharClass | src/screens/AuthScreen.tsx:39 | a class of non-surrogate BMP units occurs among the code units exactly when it occurs among the characters |
| FormValidation.PasswordLengthInCodeUnits | src/screens/AuthScreen.tsx:39 | a capital, a digit and two characters above U+FFFF pass (six units); with one such character they fail (four units) |
| FormValidation.PasswordExamples | src/screens/AuthScreen.tsx:39 | `Abc12` is accepted and the four-character `Ab12` rejected |
| FormValidation.PasswordCounterExamples | src/screens/AuthScreen.tsx:39 | a string without a capital, one without a digit, and one holding a line feed are rejected |
| AuthScreen.AuthForm.constructor | src/screens/AuthScreen.tsx:18-24 | all fields and error texts empty, the sign-in form shown |
| AuthScreen.AuthForm.ValidateEmail | src/screens/AuthScreen.tsx:28-36 | the verdict is the e-mail pattern; the error text is set exactly when it fails and cleared otherwise |
| AuthScreen.AuthForm.ValidatePassword | src/screens/AuthScreen.tsx:38-48 | the verdict is the password pattern; the error text is set exactly when it fails and cleared otherwise |
| AuthScreen.AuthForm.ValidateBoth | src/screens/AuthScreen.tsx:51 | both must pass; an invalid e-mail leaves the password unchecked and its error untouched |
| AuthScreen.AuthForm.HandleLogin | src/screens/AuthScreen.tsx:50-61 | nothing is sent unless both fields pass, and then the e-mail and password are; a returned token is logged in; a failure alerts and logs nobody in |
| AuthScreen.AuthForm.HandleRegister | src/screens/AuthScreen.tsx:63-74 | the same gate, sending the four fields; success switches to the sign-in form without touching the session status |
| GroupMembersScreen.NamesOfKeys | src/screens/GroupMembersScreen.tsx:48-57 | the names table has one entry per member `user_id` and no other |
| GroupMembersScreen.NamesOfLastWins | src/screens/GroupMembersScreen.tsx:53-55 | a `user_id` listed twice gets the name of its last lookup |
| GroupMembersScreen.CollectNames | src/screens/GroupMembersScreen.tsx:48-57 | the loop yields the table exactly when every lookup answers |
| GroupMembersScreen.ToggleTarget | src/screens/GroupMembersScreen.tsx:215-230 | only member to admin and admin to member are offered |
| GroupMembersScreen.RoleRules | src/screens/GroupMembersScreen.tsx:128 | toggling twice restores a role; admins are never managed; only an admin viewer manages anyone |
| GroupMembersScreen.MembersView.constructor | src/screens/GroupMembersScreen.tsx:24-30 | no members, no names, nothing selected, both modals closed, empty address and error |
| GroupMembersScreen.MembersView.ValidateEmail | src/screens/GroupMembersScreen.tsx:32-40 | the same rule and error text as the sign-in form |
| GroupMembersScreen.MembersView.FetchGroupMembers | src/screens/GroupMembersScreen.tsx:42-61 | the list is replaced on arrival; the names table only when every lookup answers |
| GroupMembersScreen.MembersView.ChangeUserRole | src/screens/GroupMembersScreen.tsx:67-80 | no selected member means no request; otherwise that member's role change is sent; success closes the modal and starts a member-list reload, and only success does |
| GroupMembersScreen.MembersView.AddNewMember | src/screens/GroupMembersScreen.tsx:82-100 | a request is sent exactly for a valid address, always with role "Участник"; only status 200 closes the modal and starts a member-list reload |
| Ledger.SumByAppend | src/components/TransactionsList.tsx:137-140 | the sum of a concatenation is the sum of the parts |
| Ledger.OfKind | src/components/TransactionsList.tsx:31-33 | the filtered list holds exactly the transactions of that type (the shared filter with a type test) |
| Ledger.OfKindAppend | src/components/TransactionsList.tsx:31-33 | the filter keeps input order |
| Ledger.OfKindKeepsAll | src/components/TransactionsList.tsx:31-33 | a list all of one type is kept whole |
| Ledger.Distinct | src/components/TransactionsList.tsx:46 | each value occurs once, and the values are exactly those of the input |
| Ledger.DistinctFirstOccurrenceOrder | src/components/TransactionsList.tsx:46 | de-duplicated values come in order of first occurrence |
| Ledger.GroupByKey | src/components/TransactionsList.tsx:97-109 | the keys are the distinct keys in first-appearance order, and each group is the input filtered by its key |
| Ledger.GroupingIsPartition | src/components/TransactionsList.tsx:97-109 | every element lands in exactly one group, and the group sizes add up to the length |
| Ledger.PartitionSum | src/components/TransactionsList.tsx:142-151 | the group sums over all distinct keys add up to the sum of the list |
| Ledger.NameTableKeys | src/components/TransactionsList.tsx:72-78 | the category table has an entry for every listed id and no other |
| Ledger.NameTableLastWins | src/components/TransactionsList.tsx:72-78 | the last entry with an id gives its name |
| Ledger.BuildNameTable | src/components/TransactionsList.tsx:72-78 | the reduce loop builds exactly that table |
| Ledger.SumByKey | src/components/TransactionsList.tsx:142-151 | each name's total is the sum of the amounts mapped to it, and the names are exactly those met (over a dictionary without inherited keys) |
| Ledger.KeySumIsGroupSum | src/components/TransactionsList.tsx:147 | the running per-key total equals the sum over that key's group |
| Ledger.TotalsAddUp | src/components/TransactionsList.tsx:137-151 | the per-category totals add up to `totalAmount`, for category names that are not `Object.prototype` properties |
| Ledger.DistinctUserIds | src/screens/TransactionsScreen.tsx:60-62 | the de-duplicated user ids are exactly the users of the list |
| TransactionsList.LexLeqReflexive | src/components/TransactionsList.tsx:110-112 | the date-key order is reflexive |
| TransactionsList.LexLeqTotal | src/components/TransactionsList.tsx:110-112 | any two date keys are comparable |
| TransactionsList.LexLeqAntisymmetric | src/components/TransactionsList.tsx:110-112 | keys ordered both ways are equal |
| TransactionsList.LexLeqTransitive | src/components/TransactionsList.tsx:110-112 | the order is transitive |
| TransactionsList.Insert | src/components/TransactionsList.tsx:110-112 | inserting into a descending list keeps it descending and adds exactly one element |
| TransactionsList.SortDescending | src/components/TransactionsList.tsx:110-112 | the result is descending and a permutation of the input |
| TransactionsList.DateOrderCoversAll | src/components/TransactionsList.tsx:97-112 | every transaction's date is listed, only listed dates occur, and none twice |
| TransactionsList.UsersTable | src/components/TransactionsList.tsx:46-61 | one entry per user of the list, holding the full name or "Неизвестный пользователь" |
| TransactionsList.UnnamedCategoryIsUnknown | src/components/TransactionsList.tsx:145-146 | an unknown id and an empty name both fall back to "Неизвестная" |
| TransactionsList.LabelUsers | src/components/TransactionsList.tsx:48-61 | each id gets the looked-up name or the fallback |
| TransactionsList.LabelledIsUsersTable | src/components/TransactionsList.tsx:46-61 | labelling the de-duplicated ids gives the users table |
| TransactionsList.SortedKeysHaveGroups | src/components/TransactionsList.tsx:110-112 | sorting the group keys gives the date order, and each key still has its group |
| TransactionsList.SortedDateGroups | src/components/TransactionsList.tsx:97-112 | the entries are the date groups in descending key order |
| TransactionsList.TransactionsListView.constructor | src/components/TransactionsList.tsx:19-21 | no transactions, and empty category and user tables |
| TransactionsList.TransactionsListView.FetchTransactions | src/components/TransactionsList.tsx:24-41 | with a token and a reply, the list becomes the transactions of the screen's type and the users table follows it; otherwise nothing changes |
| TransactionsList.TransactionsListView.FetchUsers | src/components/TransactionsList.tsx:43-63 | with a token, the users table is the table of the current list |
| TransactionsList.TransactionsListView.FetchCategories | src/components/TransactionsList.tsx:65-84 | with a token and a reply, the category table is rebuilt; otherwise kept |
| TransactionsList.TransactionsListView.GroupTransactionsByDate | src/components/TransactionsList.tsx:97-113 | the date groups in descending key order, each the transactions of that date in input order |
| TransactionsList.TransactionsListView.GetCategoryData | src/components/TransactionsList.tsx:142-160 | per-category totals under their names, in first-appearance order, adding up to the total amount when no name is an `Object.prototype` property |
| TransactionsScreen.AmountPrefix | src/screens/TransactionsScreen.tsx:127 | "+" exactly for income, "-" otherwise |
| TransactionsScreen.CategoryCaption | src/screens/TransactionsScreen.tsx:114 | the category name, or "Неизвестная категория" when it is unknown or empty |
| TransactionsScreen.IncomeExpenseSplit | src/screens/TransactionsScreen.tsx:49-54 | when every transaction is income or expense, the two totals add up to the sum of all amounts |
| TransactionsScreen.OtherKindCountsInNeither | src/screens/TransactionsScreen.tsx:49-54 | a transaction of any other type changes neither total |
| TransactionsScreen.MergeUsers | src/screens/TransactionsScreen.tsx:60-73 | answered lookups add their names to the previous table; failed ones add nothing |
| TransactionsScreen.TransactionsView.constructor | src/screens/TransactionsScreen.tsx:25-31 | no transactions, empty tables, and both totals zero |
| TransactionsScreen.TransactionsView.FetchTransactions | src/screens/TransactionsScreen.tsx:46-73 | with a token and a reply: the list, the income and expense totals over their types, and the merged users; otherwise nothing changes |
| TransactionsScreen.TransactionsView.FetchCategories | src/screens/TransactionsScreen.tsx:80-102 | with a token and a reply, the category table is rebuilt, later entries winning |
| TransactionsScreen.TransactionsView.GroupTransactionsByDate | src/screens/TransactionsScreen.tsx:133-160 | the groups partition the list by date; the dates are distinct and in first-appearance order |
| Lists.Filter | src/screens/ProfileScreen.tsx:147-149 | every kept element passes the test |
| Lists.FilterMembers | src/screens/ProfileScreen.tsx:147-149 | the filtered list holds exactly the elements that pass |
| Lists.FilterCounts | src/screens/ProfileScreen.tsx:147-149 | an element that passes is kept exactly as often as it occurs; one that fails is dropped |
| Lists.MapWhere | src/screens/ProfileScreen.tsx:94-98 | matching elements are changed and all others kept, with the same length and order |
| Lists.FirstWhere | src/screens/HistoryExpenseScreen.tsx:75-77 | the index of the first match, or the length when nothing matches |
| ProfileScreen.StatusKeysAreNotTokenKeys | src/screens/ProfileScreen.tsx:74 | a debt status key never collides with a credential key |
| ProfileScreen.WithStoredStatus | src/screens/ProfileScreen.tsx:72-76 | each debt shows its stored status when that is non-empty, otherwise the server's |
| ProfileScreen.ReloadAgreesWithLocalUpdate | src/screens/ProfileScreen.tsx:92-98 | caching a status and changing the matching debts gives the list that a reload would give |
| ProfileScreen.DebtTextColor | src/screens/ProfileScreen.tsx:166-175 | "Выплачено" is green, "Отменено" gray, anything else "#FF6347" |
| ProfileScreen.OfferedStatusesHaveDistinctColours | src/screens/ProfileScreen.tsx:166-175 | the three offered statuses get three different colours |
| ProfileScreen.ProfileView.constructor | src/screens/ProfileScreen.tsx:27-36 | no debts, nothing selected, empty amount and status, both modals closed, no error |
| ProfileScreen.ProfileView.FetchUserDebts | src/screens/ProfileScreen.tsx:65-83 | with a token and a reply, the debts are the overlaid server list; otherwise unchanged |
| ProfileScreen.ProfileView.UpdateDebtStatus | src/screens/ProfileScreen.tsx:85-105 | without a selection or status, only the error text is set; otherwise the key is written, only matching debts change, the modal closes and the error clears; a failed write changes nothing |
| ProfileScreen.ProfileView.UpdateDebt | src/screens/ProfileScreen.tsx:107-134 | an empty amount sets "Введите сумму" and sends nothing; without a token nothing is sent; success starts a debts reload, closes the editor and clears the amount and error, and only success does |
| ProfileScreen.ProfileView.DeleteDebt | src/screens/ProfileScreen.tsx:136-157 | a successful delete starts a debts reload and removes exactly the debts with that id; anything else changes nothing |
| ProfileScreen.DeleteRemovesExactlyThatId | src/screens/ProfileScreen.tsx:147-149 | no debt with the id remains, and every other debt keeps its multiplicity |
| GoalsScreen.StatusKeysAreNotTokenKeys | src/screens/GoalsScreen.tsx:58 | a goal status key never collides with a credential key |
| GoalsScreen.WithStoredStatus | src/screens/GoalsScreen.tsx:56-61 | each goal shows its stored status when that is non-empty, otherwise the server's |
| GoalsScreen.ReloadAgreesWithLocalUpdate | src/screens/GoalsScreen.tsx:136-142 | caching a status and changing the matching goals gives the list that a reload would give |
| GoalsScreen.SaveAmountKeepsCurrentAmount | src/screens/GoalsScreen.tsx:82-88 | saving sets `amount` on matching goals only, and `currentAmount` is left on all of them |
| GoalsScreen.GoalTextColor | src/screens/GoalsScreen.tsx:118-127 | "Достигнута" is green, "Отменена" gray, anything else black |
| GoalsScreen.OfferedStatusesHaveDistinctColours | src/screens/GoalsScreen.tsx:118-127 | the three offered statuses get three different colours |
| GoalsScreen.GoalsView.constructor | src/screens/GoalsScreen.tsx:34-47 | no goals or group goals, nothing selected, empty amount and status, both modals closed, no error |
| GoalsScreen.GoalsView.FetchGoals | src/screens/GoalsScreen.tsx:53-66 | the goals are the overlaid server list, or unchanged when the request fails |
| GoalsScreen.GoalsView.HandleEditGoal | src/screens/GoalsScreen.tsx:68-72 | selects the goal, prefills its accumulated amount in decimal and opens the editor |
| GoalsScreen.GoalsView.HandleSaveAmount | src/screens/GoalsScreen.tsx:74-94 | no selection does nothing; otherwise a contribution of the typed amount to that goal is posted with `is_active_pay` false, and success tags the matching goals and closes the editor |
| GoalsScreen.GoalsView.HandleDeleteGoal | src/screens/GoalsScreen.tsx:96-116 | success removes the id from both goal lists |
| GoalsScreen.GoalsView.UpdateGoalStatus | src/screens/GoalsScreen.tsx:129-149 | without a selection or status, only the error text is set; otherwise the key is written and only matching goals change |
| GoalsScreen.DeleteRemovesExactlyThatId | src/screens/GoalsScreen.tsx:107-108 | no goal with the id remains, and every other goal keeps its multiplicity |
| HistoryExpenseScreen.WithNames | src/screens/HistoryExpenseScreen.tsx:45-61 | each contribution gets the full name of its contributor |
| HistoryExpenseScreen.CanToggle | src/screens/HistoryExpenseScreen.tsx:128 | the switch shows only to the contributor, never before the user is known |
| HistoryExpenseScreen.ToggleFlipsOnlyThatOne | src/screens/HistoryExpenseScreen.tsx:90-96 | with unique ids, only that contribution's flag flips |
| HistoryExpenseScreen.ToggleTwiceRestores | src/screens/HistoryExpenseScreen.tsx:72-100 | with unique ids, toggling twice restores the list |
| HistoryExpenseScreen.HistoryView.constructor | src/screens/HistoryExpenseScreen.tsx:24-27 | the screen starts loading, with an empty list and no error |
| HistoryExpenseScreen.HistoryView.FetchContributions | src/screens/HistoryExpenseScreen.tsx:30-68 | no token means no request and the list unchanged; a decodable token sets the user id, unknown when the claim is absent; any failure sets "Ошибка загрузки данных"; loading always ends |
| HistoryExpenseScreen.HistoryView.ToggleActivePay | src/screens/HistoryExpenseScreen.tsx:72-100 | an unknown id sends nothing; otherwise the negated flag is sent; success applies the toggle and failure keeps the list |
| HistoryExpenseScreen.HistoryView.GroupByDay | src/screens/HistoryExpenseScreen.tsx:105-110 | the day groups in first-appearance order, each the contributions of that day |

## Left out

- Rendering, styles, modals' visual state, navigation and `src/App.tsx` are presentation. Modal flags are modelled only where a handler sets them.
- Real HTTP is not modelled: each reply is a parameter. `jwtDecode` is a partial function parameter, `Linking.parse` a parameter, and the clock a number of milliseconds.
- `setTimeout`/`clearTimeout` are explicit arm, cancel and fire events. The unmount cleanup that removes the app-state subscription and clears the held timer is not modelled.
- Promise interleavings are not modelled. Each handler runs to completion over a sequential store.
- `parseFloat` of typed amounts and floating-point sums are not modelled: amounts are integers. `isDarkColor` is not modelled.
- Date keys (`toISOString`, `toLocaleDateString`) are a function parameter. `localeCompare` on ISO dates is code-point order.
- The Google and Yandex login components, the CRUD-only forms, and `removeMember` are not modelled.
- The list reloads that `updateDebt`, `deleteDebt`, `changeUserRole` and `addNewMember` start without awaiting are reported by a `reload` result. The reload's own effect, and its interleaving with the handler's other updates, are not modelled.
- `TokenService.ts` has no default export. As written, the default `axios` import is therefore undefined in `AuthService.ts`, `GoalsScreen.tsx`, `ProfileScreen.tsx`, `GroupMembersScreen.tsx`, `TransactionsScreen.tsx` and `TransactionsList.tsx`, and every request there would throw. The model assumes the import resolves to plain `axios`. A request that throws is still covered: it is the failed-reply case of each operation.
- The contribution schema file is not part of this model. `Contribution` holds the fields the history screen reads.
- Object key order for integer-like keys (`Object.keys`) is not modelled. Key order is insertion order.
- `GoalsScreen.GoalsView.HandleSaveAmount`: the `amount` attached to a goal is the typed text, not its `parseFloat` value.
- `ProfileScreen.ProfileView.UpdateDebt`: the request carries the typed amount text, not its `parseFloat` value.
- `GoalsScreen.GoalsView.HandleEditGoal`: `current_amount` is an integer, so its `toString` is the decimal rendering of an integer.
- `AuthScreen.AuthForm.HandleLogin`: a reply whose `access_token` is undefined is treated as a failed storage write. `AsyncStorage.setItem` rejects such a value, so the alert is shown and nothing changes.
- `TransactionsList.TransactionsListView.GetCategoryData`: the totals are kept in a map with no inherited keys. The code sums into a plain object. A category named `constructor` or `toString` starts from the inherited function, so its total becomes a string. One named `__proto__` never appears among the keys. For such names the per-category totals stop adding up to the total.
- `Ledger.SumByKey`: a map without inherited keys, for the same reason as `GetCategoryData`.
- `Ledger.TotalsAddUp`: proved for that map. It does not hold in the code for category names that are `Object.prototype` properties.
- `TokenService.RefreshAccessToken`: a token value in the reply that is neither a string nor absent (a number, say) is not modelled.
