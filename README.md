# Portfolio workspace: auth server and business pages, modelled in Dafny

This project models the logic core of a small business workspace. It has two halves.

**The authentication server.** An Express application keeps its state in SQLite:
- users, sessions and password-reset tickets;
- the `single_session` preference;
- roles and role links;
- one JSON document per user for the finance page and for the pipeline data page, plus the shared pipeline board.

**The browser pages that transform business data:**
- the finance page: categories, the legacy migration, expenses, filters, totals per category, restore and undo;
- the sales pipeline board: drag and drop, deal and column editing;
- the pipeline data page: value parsing, stage summary, moving a deal between stages;
- the login page: the recent-accounts list, and the login, signup and recovery flows;
- access management: module and role-permission toggles;
- the settings dialog: section order and the single-open accordion;
- the support page's FAQ search;
- the category filter component.

## How it is modelled

- **The server.** `Auth` models each table as a sequence of rows, in rowid order, inside one `Database` value. Each HTTP handler is a function from the old database and the request to the new database and the response. `AuthServer.Server` is a class holding the same tables as fields. Each handler is a method that updates them step by step, with the statements the source runs (insert a session, delete a user's sessions, mark a ticket used…). Each method is proved to produce exactly what the `Auth` function describes. `AuthProperties` proves the properties the server promises. `Valid` states the table constraints, and every handler method of `AuthServer.Server` requires and keeps it:
  - unique emails;
  - ids below the AUTOINCREMENT counters.
- **Foreign inputs are parameters:**
  - the clock is `now` (milliseconds);
  - `crypto.randomBytes` is a `token` parameter;
  - SHA-256 is the `hashToken` function of a `Crypto` value. Its injectivity, `TokenHashInjective`, is assumed only by the one lemma that needs it, `AuthProperties.LogoutKeepsOtherTokens`;
  - bcrypt is `hashPassword`, and comparison is equality of hashes.
- **Client pages** with state are classes whose fields are the page's state cells: `Finance.Page`, `Pipeline.Board`, `PipelineData.Page`, `LoginPage.Page`, `Access.Panel` and `Settings.Dialog`. Each handler is a method that reassigns them. The pure transformations the handlers apply are functions, and the properties are lemmas about those functions.
- **Helper modules:**
  - `Text` models `trim`, `toLowerCase` and `includes`;
  - `Numbers` models the subset of `Number()` that the pages rely on, and integer rendering;
  - `JsonData` models JSON values and member lookup;
  - `Seqs` holds filter, subsequence and `arrayMove`/`splice` helpers.

## Model

| member | source | states |
|---|---|---|
| Auth.Initial | server/index.ts:55-153 | a fresh database has empty user, session and ticket tables and satisfies the table constraints |
| Auth.NormalizeEmail | server/index.ts:310-313 | a missing email becomes the empty string; a present one is trimmed and then lower-cased |
| Auth.UserByEmail | server/index.ts:320-323 | `SELECT … WHERE email = ?`: the first row with that email, or none when no row has it |
| Auth.UserIndex | server/index.ts:282-288 | the first row with the id, or none when no row has it |
| Auth.TokenFromRequest | server/index.ts:268-274 | an empty token is returned exactly when the Authorization header starts with "Bearer " and only white space follows |
| Auth.IssueSession | server/index.ts:233-242 | appends exactly one session row holding `hashToken(token)`, not the raw token, and expiring `now` + 7 days; nothing else changes |
| Auth.DeleteSessionById | server/index.ts:293 | removes exactly the rows with that id and keeps every other row |
| Auth.DeleteUserSessions | server/index.ts:743 | removes exactly the user's rows and keeps every other row |
| Auth.DeleteSessionsByHash | server/index.ts:390 | removes exactly the rows with that token hash and keeps every other row |
| Auth.ClearUserSessions | server/index.ts:251-253 | afterwards the user has no session; other users' sessions and the other tables are untouched |
| Auth.SessionByHash | server/index.ts:281-288 | the first session row with the hash whose user exists (the inner join), or none when there is no such row |
| Auth.Authenticate | server/index.ts:276-307 | only deletes session rows; when a user is returned, nothing changes and the user is a row of the table; no token, an empty token, or no session row joined to a user gives no user and no change |
| Auth.Signup | server/index.ts:309-350 | success iff the normalized email and the password are non-empty and the email is unused; any failure leaves the database unchanged |
| Auth.LinkDefaultRole | server/index.ts:337-345 | adds at most the link to the role named "Administrador" for the new user; other tables are unchanged |
| Auth.Login | server/index.ts:352-385 | a blank email or password gives 400 and no change; an unknown email or a password whose hash does not match gives 401 `invalid_credentials` and no change; a 200 or 409 happens only when the password matches the user's stored hash |
| Auth.Logout | server/index.ts:387-394 | always answers ok and changes only the session table |
| Auth.Me | server/index.ts:396-398 | answers 200 exactly when the request authenticates, with that user's profile as the body, else 401; its only effect is the lookup's expiry deletion |
| Auth.SetNameAndEmail | server/index.ts:415-419 | rewrites name and email of the rows with the id and keeps every other row |
| Auth.PatchMe | server/index.ts:400-425 | without a signed-in user, 401 and the state the lookup left; on 200 the signed-in user's row gets the trimmed name (or null) and the normalized email, or keeps its email when the field is blank, and nothing else changes; a failed request leaves the state as the lookup left it |
| Auth.UpdateMe | server/index.ts:401-425 | answers 409 exactly when the normalized email is non-empty and belongs to another user, and then changes nothing; otherwise 200, the user's row gets the trimmed name and the kept or new email, and the reply is that user |
| Auth.KeptEmail | server/index.ts:415-419 | `COALESCE(?, email)`: the normalized field when it is non-empty, else the current address |
| Auth.PutProfile | server/index.ts:523-685 | without a signed-in user, 401 and the state the lookup left; on 200 the user's row gets the trimmed name and the normalized email and `single_session` is recorded, nothing else changes |
| Auth.UpdateProfile | server/index.ts:524-546 | a blank email gives 400 `email_required`; success iff the normalized email is non-empty and no other user has it; on success the user's row gets the trimmed name and the email, the `single_session` preference is set, and the reply is that user; failures change nothing |
| Auth.ForgotPassword | server/index.ts:687-709 | always answers 200; a token is returned iff the email belongs to a user; otherwise nothing changes |
| Auth.ResetByHash | server/index.ts:720-727 | the first ticket with the hash, or none when no ticket has it |
| Auth.SetPasswordHash | server/index.ts:734-738 | replaces the password hash of the rows with the id and keeps every other row |
| Auth.MarkUsed | server/index.ts:739-742 | sets `used_at` of the ticket with the id and keeps every other ticket |
| Auth.ResetPassword | server/index.ts:711-746 | answers 200 or 400; a 400 changes nothing |
| Auth.DeleteRole | server/index.ts:782-791 | a failed request leaves the state as the authentication left it |
| Auth.RemoveRole | server/index.ts:783-790 | success iff `Number(id)` is a non-zero number; failure is 400 `invalid_request` with no change; only roles and role links change |
| Auth.DocumentPayload | server/index.ts:871-879 | the stored document is `body.data` when that is neither missing nor null, and is never null |
| Auth.BoardPayload | server/index.ts:842-843 | the stored board always has a `columns` member |
| Auth.PutDocument | server/index.ts:870-881 | answers 200 or 401 |
| Auth.StoreDocument | server/index.ts:873-879 | the upsert stores a document under its key and leaves every other key and table as it was |
| Auth.ReadDocument | server/index.ts:855-862 | a document is found iff one is stored under the key |
| Auth.GetDocument | server/index.ts:855-868 | answers 200 or 401; its only effect is the lookup's expiry deletion |
| Auth.PutBoard | server/index.ts:841-853 | answers 200 or 401 |
| Auth.GetBoard | server/index.ts:826-839 | answers 200 or 401; its only effect is the lookup's expiry deletion |
| Auth.TrimmedIsClean | server/index.ts:548-556 | a trimmed non-empty entry is one the profile keeps |
| Auth.NormalizeStringList | server/index.ts:548-556 | an array gives exactly its string items, trimmed, without the empty ones, in order (the filter/trim/filter chain `StringChain`); a non-array gives the empty list |
| Auth.StringItems | server/index.ts:552-555 | the one-pass scan equals the filter/trim/filter chain, every entry is trimmed and non-empty, and the list never grows |
| Auth.StringItemsKeepsEvery | server/index.ts:552-555 | every string item that is not blank appears in the result, trimmed |
| Auth.ParseStringList | server/index.ts:471-488 | a missing or empty column, text that does not parse, or JSON that is not an array gives []; a parsed array gives exactly its trimmed non-empty string items in order |
| AuthProperties.BearerHeaderWins | server/index.ts:268-274 | a header starting with "Bearer " yields the trimmed rest, whatever the cookie is |
| AuthProperties.LowerCaseSchemeIgnored | server/index.ts:270 | the scheme match is case-sensitive: "bearer " falls back to the cookie |
| AuthProperties.CookieWithoutHeader | server/index.ts:273 | with no header the cookie is used when non-empty; with neither the result is null |
| AuthProperties.IssuedTokenAuthenticates | server/index.ts:233-297 | a token just issued authenticates its user and changes nothing, until it expires |
| AuthProperties.AuthenticateFound | server/index.ts:289-296 | an expired row (`expires_at < now`, strict) is deleted and null returned; otherwise the user is returned with no change |
| AuthProperties.ExpiredSessionDeleted | server/index.ts:292-295 | presenting a token after its expiry deletes its row and returns null |
| AuthProperties.AuthenticateValid | server/index.ts:276-297 | the lookup keeps the table constraints |
| AuthProperties.SignupCreatesAccount | server/index.ts:328-349 | a successful signup appends exactly one user and one session, adds only links of the new user and bumps the two counters; nothing else changes |
| AuthProperties.SignupDuplicateEmailRefused | server/index.ts:320-326 | signing up again with an email just registered answers 409 and changes nothing |
| AuthProperties.LoginAs | server/index.ts:362-384 | valid credentials without a session conflict issue exactly one session for that user |
| AuthProperties.SignupThenLogin | server/index.ts:309-385 | after a signup the same credentials log in as the new user |
| AuthProperties.SignupThenWrongPassword | server/index.ts:352-367 | after a signup, a login with a password whose hash differs gives 401 and changes nothing |
| AuthProperties.LoginConflictSignsOut | server/index.ts:372-380 | with `single_session` on and any session present, all of the user's sessions go, others stay, the answer is 409 and no session is issued |
| AuthProperties.LoginAfterConflictSucceeds | server/index.ts:372-384 | after such a conflict the next login with the same credentials answers 200 |
| AuthProperties.IssueSessionValid | server/index.ts:233-242 | issuing a session keeps the table constraints |
| AuthProperties.SignupValid | server/index.ts:309-350 | signup keeps the table constraints (emails unique, ids below the counters) |
| AuthProperties.LoginValid | server/index.ts:352-385 | login keeps the table constraints |
| AuthProperties.LogoutRevokes | server/index.ts:387-394 | after logout the presented credential authenticates nobody |
| AuthProperties.LogoutIdempotent | server/index.ts:387-394 | logging out twice is logging out once |
| AuthProperties.LogoutKeepsOtherTokens | server/index.ts:390 | sessions of other tokens survive a logout |
| AuthProperties.LogoutValid | server/index.ts:387-394 | logout keeps the table constraints |
| AuthProperties.OwnEmailNotTaken | server/index.ts:405-413 | a user's own email never counts as taken by another user |
| AuthProperties.SetNameAndEmailReadsBack | server/index.ts:415-424 | after the update the user is at the same row, which reads back with the new name and email |
| AuthProperties.UpdateMeReportsRow | server/index.ts:415-424 | PATCH /api/auth/me replies with the row as the `SELECT` after the `UPDATE` reads it |
| AuthProperties.UpdateProfileReportsRow | server/index.ts:542-666 | PUT /api/profile replies with the user row as it reads after the update |
| AuthProperties.PatchMeValid | server/index.ts:400-425 | renaming keeps the table constraints, emails included |
| AuthProperties.PutProfileValid | server/index.ts:523-685 | the profile update keeps the table constraints |
| AuthProperties.ProfileSetsSingleSession | server/index.ts:612-661 | a successful profile update records the requested `single_session` value |
| AuthProperties.ForgotIssuesOneTicket | server/index.ts:700-708 | a known email adds exactly one ticket holding the token's hash and expiring `now` + 30 minutes, and returns the raw token |
| AuthProperties.ResetRevokesSessions | server/index.ts:729-745 | a successful reset used a redeemable ticket, sets the new password hash, marks the ticket used and leaves its user no session |
| AuthProperties.ResetWith | server/index.ts:734-745 | a reset with a redeemable ticket changes exactly the password hash, the ticket's `used_at` and the user's sessions |
| AuthProperties.ResetSingleUse | server/index.ts:729-732 | a second reset with the same token answers 400 |
| AuthProperties.RecoveryThenLogin | server/index.ts:687-746 | forgot-password, then a reset with the returned token, lets the user log in with the new password |
| AuthProperties.ForgotValid | server/index.ts:687-709 | forgot-password keeps the table constraints |
| AuthProperties.ResetValid | server/index.ts:711-746 | reset-password keeps the table constraints |
| AuthProperties.RemoveRoleRemoves | server/index.ts:788-790 | a valid id removes that role and its links, keeps every other role and link, and answers ok |
| AuthProperties.RemoveRoleRejectsZero | server/index.ts:784-787 | id "0" is refused with 400 and no change |
| AuthProperties.RemoveRoleRejectsBlank | server/index.ts:783-787 | a blank id, which `Number` reads as 0, is refused with 400 and no change |
| AuthProperties.DeleteRoleValid | server/index.ts:782-791 | role deletion keeps the table constraints |
| AuthProperties.AuthenticateIgnoresDocuments | server/index.ts:276-297 | stored documents never affect who a request authenticates as |
| AuthProperties.DocumentRoundTrip | server/index.ts:855-881 | a GET after a PUT by the same user returns the stored payload |
| AuthProperties.BoardRoundTrip | server/index.ts:826-853 | the board reads back as stored, always with a `columns` member |
| AuthProperties.DocumentsArePerUser | server/index.ts:873-879 | a PUT never changes the document under any other key |
| AuthProperties.PutDocumentValid | server/index.ts:870-909 | storing a document keeps the table constraints |
| AuthProperties.PutBoardValid | server/index.ts:841-853 | storing the board keeps the table constraints |
| AuthProperties.NormalizeStringListIdempotent | server/index.ts:548-556 | normalizing an already normalized list returns it unchanged |
| AuthProperties.StringItemsOfClean | server/index.ts:552-555 | a list of trimmed non-empty strings passes through unchanged |
| AuthServer.Server.constructor | server/index.ts:55-153 | the tables start as the initial database and satisfy the constraints |
| AuthServer.Server.IssueSession | server/index.ts:233-242 | the new tables are exactly `Auth.IssueSession` of the old ones |
| AuthServer.Server.CurrentUser | server/index.ts:276-297 | new tables and result are exactly `Authenticate` of the old tables |
| AuthServer.Server.ClearUserSessions | server/index.ts:251-253 | the new tables are exactly `Auth.ClearUserSessions` of the old ones |
| AuthServer.Server.HasActiveSession | server/index.ts:244-249 | true iff the user has a session row, expired or not |
| AuthServer.Server.FindUserByEmail | server/index.ts:320-323 | the scan finds the row `UserByEmail` names |
| AuthServer.Server.EmailTaken | server/index.ts:407-413 | true iff another user has the email |
| AuthServer.Server.Signup | server/index.ts:309-350 | state and response are exactly `Auth.Signup`'s, and the constraints hold |
| AuthServer.Server.Login | server/index.ts:352-385 | state and response are exactly `Auth.Login`'s, and the constraints hold |
| AuthServer.Server.Logout | server/index.ts:387-394 | state and response are exactly `Auth.Logout`'s, and the constraints hold |
| AuthServer.Server.Me | server/index.ts:396-398 | state and response are exactly `Auth.Me`'s, and the constraints hold |
| AuthServer.Server.PatchMe | server/index.ts:400-425 | state and response are exactly `Auth.PatchMe`'s, and the constraints hold |
| AuthServer.Server.PutProfile | server/index.ts:523-685 | state and response are exactly `Auth.PutProfile`'s, and the constraints hold |
| AuthServer.Server.ForgotPassword | server/index.ts:687-709 | state and response are exactly `Auth.ForgotPassword`'s, and the constraints hold |
| AuthServer.Server.ResetPassword | server/index.ts:711-746 | state and response are exactly `Auth.ResetPassword`'s, and the constraints hold |
| AuthServer.Server.InsertUser | server/index.ts:330-335 | appends one user row with the next id and bumps the counter |
| AuthServer.Server.InsertTicket | server/index.ts:700-706 | appends one ticket with the token's hash, expiring in 30 minutes |
| AuthServer.Server.SetSingleSession | server/index.ts:612-661 | records the `single_session` preference of the user |
| AuthServer.Server.Store | server/index.ts:873-879 | the new tables are `StoreDocument` of the old ones |
| AuthServer.Server.LinkDefaultRole | server/index.ts:337-345 | the new tables are `Auth.LinkDefaultRole` of the old ones |
| AuthServer.Server.SetNameAndEmailOf | server/index.ts:415-419 | the user table becomes `SetNameAndEmail` of the old one |
| AuthServer.Server.DeleteRoleRows | server/index.ts:788-789 | removes the role's links, then the role |
| AuthServer.Server.SetPassword | server/index.ts:734-738 | the user table becomes `SetPasswordHash` of the old one |
| AuthServer.Server.MarkTicketUsed | server/index.ts:739-742 | the ticket table becomes `MarkUsed` of the old one |
| AuthServer.Server.DeleteRole | server/index.ts:782-791 | state and response are exactly `Auth.DeleteRole`'s, and the constraints hold |
| AuthServer.Server.PutDocument | server/index.ts:870-909 | state and response are exactly `Auth.PutDocument`'s, and the constraints hold |
| AuthServer.Server.GetDocument | server/index.ts:855-896 | state and response are exactly `Auth.GetDocument`'s, and the constraints hold |
| AuthServer.Server.PutBoard | server/index.ts:841-853 | state and response are exactly `Auth.PutBoard`'s, and the constraints hold |
| AuthServer.Server.GetBoard | server/index.ts:826-839 | state and response are exactly `Auth.GetBoard`'s, and the constraints hold |
| Text.Trim | server/index.ts:310-312 | the result is no longer than the input and neither starts nor ends with white space |
| Text.TrimIdempotent | client/src/pages/Financas.tsx:886 | trimming twice is trimming once |
| Text.BlankIffAllSpace | client/src/pages/Financas.tsx:825 | `!x.trim()` holds iff the string is all white space |
| Text.ToLower | client/src/pages/Support.tsx:85 | lower-casing keeps the length and maps each character by itself |
| Text.IncludesIffOccurs | client/src/pages/Support.tsx:91 | `includes` holds iff the needle occurs at some index |
| Numbers.CommaToPoint | client/src/pages/Financas.tsx:824 | `replace(",", ".")` keeps the length and changes at most commas into points |
| Numbers.UnsignedDecimal | client/src/pages/PipelineData.tsx:56 | an unsigned numeral reads as a non-negative number |
| Numbers.ParseNatToString | client/src/pages/Financas.tsx:878 | a rendered whole number reads back as itself |
| Numbers.NatToStringInjective | client/src/pages/Financas.tsx:844 | distinct clock readings give distinct generated ids |
| Finance.DefaultCategories | client/src/pages/Financas.tsx:82-95 | the twelve built-in categories, with their ids, names and palette colours |
| Finance.TrimmedMember | client/src/pages/Financas.tsx:146-158 | a field is used iff it is a string that is not blank, and then it is trimmed |
| Finance.FallbackId | client/src/pages/Financas.tsx:153-156 | the generated id is non-blank and trimmed |
| Finance.PaletteColor | client/src/pages/Financas.tsx:157-161 | the colour is always in the palette; it is kept when it is in the palette, else it is `palette[index mod length]` |
| Finance.NormalizeCategory | client/src/pages/Financas.tsx:142-163 | null iff the name is missing, not a string or blank; otherwise trimmed name and id (with the fallback id), and the colour rule |
| Finance.SanitizeCategories | client/src/pages/Financas.tsx:165-172 | a non-array gives []; otherwise at most as many items as the input, all normalized |
| Finance.SanitizeKeepsNamed | client/src/pages/Financas.tsx:169-171 | exactly the items with a usable name survive |
| Finance.NormalizeStored | client/src/pages/Financas.tsx:142-163 | a stored normalized category reads back as itself |
| Finance.SanitizeRoundTrip | client/src/pages/Financas.tsx:165-172 | a stored list of normalized categories sanitizes to itself |
| Finance.ShouldReset | client/src/pages/Financas.tsx:197-206 | true iff the list is empty, or some id is legacy, or no name is one of the new names |
| Finance.LegacyIdsAreMapKeys | client/src/pages/Financas.tsx:112-195 | the legacy id set and the remap table name the same ids |
| Finance.TargetsAreNotKeys | client/src/pages/Financas.tsx:112-124 | no legacy id is mapped to another legacy id |
| Finance.DefaultsDoNotReset | client/src/pages/Financas.tsx:82-206 | the default categories do not trigger the reset rule |
| Finance.DefaultsStored | client/src/pages/Financas.tsx:82-95 | every default category is normalized and survives storage |
| Finance.TargetsAreDefaults | client/src/pages/Financas.tsx:82-124 | every legacy id is mapped to the id of a default category |
| Finance.RemapLegacy | client/src/pages/Financas.tsx:208-212 | keeps length, order and every field but `categoryId`; rewrites exactly the legacy ids |
| Finance.RemapClearsLegacy | client/src/pages/Financas.tsx:208-212 | after remapping no expense refers to a legacy id |
| Finance.RemapIdempotent | client/src/pages/Financas.tsx:208-212 | remapping twice is remapping once |
| Finance.RemapIntoDefaults | client/src/pages/Financas.tsx:208-212 | a remapped legacy expense refers to a default category |
| Finance.Load | client/src/pages/Financas.tsx:498-565 | when the rule fires: the twelve defaults, remapped expenses, written back; otherwise the sanitized list and the expenses unchanged, nothing written; the result never needs a reset |
| Finance.LoadIsStable | client/src/pages/Financas.tsx:498-565 | loading what a load wrote back migrates nothing further |
| Finance.SettleCategories | client/src/pages/Financas.tsx:712-724 | an empty list becomes the defaults; a list that needs a reset becomes the defaults with remapped expenses; otherwise nothing changes |
| Finance.LoadIsSettled | client/src/pages/Financas.tsx:712-724 | after a load the categories effect has nothing to do |
| Finance.SelectedCategory | client/src/pages/Financas.tsx:738-743 | a selected id that exists is kept; otherwise the first category's id, or "" for no categories |
| Finance.SelectedCategoryStable | client/src/pages/Financas.tsx:738-743 | running the effect a second time changes nothing |
| Text.SearchTerm | client/src/pages/Financas.tsx:789 | the search term (also the help page's, Support.tsx:85-86) is empty iff the query is blank |
| Finance.FilteredExpenses | client/src/pages/Financas.tsx:788-803 | an order-preserving subsequence holding every matching expense as often as it occurs and no other |
| Finance.MatchesIffOccurs | client/src/pages/Financas.tsx:790-802 | matching is: the category filter is empty or holds the category, and the trimmed lower-cased query occurs in the lower-cased "title comment" |
| Finance.NoFilterShowsAll | client/src/pages/Financas.tsx:788-803 | with no category filter and a blank query every expense is shown, in order |
| Finance.ChartFilterKeepsTotals | client/src/pages/Financas.tsx:746-749 | a selected category keeps its total under the filter; an unselected one drops to 0 |
| Finance.Entries | client/src/pages/Financas.tsx:750-763 | one entry per category, in order, with the category's total |
| Finance.InsertKeepsDescending | client/src/pages/Financas.tsx:765 | inserting into a list sorted largest first keeps it sorted |
| Finance.SortByValue | client/src/pages/Financas.tsx:765 | the sort is a permutation and orders entries largest first |
| Finance.TotalsByCategory | client/src/pages/Financas.tsx:745-766 | only positive totals, largest first, a permutation of the positive entries |
| Finance.TotalsByCategoryShows | client/src/pages/Financas.tsx:745-766 | a category appears in the chart iff its filtered total is positive |
| Finance.SaveExpense | client/src/pages/Financas.tsx:820-864 | nothing happens without permission, with a blank title or with an amount that is not a number; a new expense is put first with trimmed fields; an edit changes only the matching id and keeps its id and `createdAt` |
| Finance.WholeAmountReadsBack | client/src/pages/Financas.tsx:824-878 | a whole amount, rendered and read back, is itself |
| Finance.ReopenUnchanged | client/src/pages/Financas.tsx:820-883 | opening an expense with trimmed fields and a whole amount and saving it changes nothing |
| Finance.SaveNewKeepsIdsDistinct | client/src/pages/Financas.tsx:844-856 | adding an expense with a fresh id keeps ids distinct |
| Finance.RemoveExpense | client/src/pages/Financas.tsx:1763-1767 | an order-preserving subsequence without the id that keeps every other expense as often as it occurs |
| Finance.AddCategory | client/src/pages/Financas.tsx:885-896 | nothing happens for a blank name; otherwise one category with the trimmed name is appended, coloured from the palette |
| Finance.WithoutCategory | client/src/pages/Financas.tsx:899 | an order-preserving subsequence without the id that keeps every other category as often as it occurs |
| Finance.RemoveCategory | client/src/pages/Financas.tsx:898-919 | the list is never empty ("Sem categoria" is added); expenses of the removed id move to the first remaining id; the other expenses are unchanged |
| Finance.RemoveKeepsReferences | client/src/pages/Financas.tsx:898-919 | when every expense referred to a category before, it still does afterwards |
| Finance.AddThenRemoveCategory | client/src/pages/Financas.tsx:885-919 | removing a category just added with a fresh id gives back the categories and the expenses |
| Finance.StartEditCategory | client/src/pages/Financas.tsx:921-929 | the editor holds the id and name, and the colour if it is in the palette, else a palette colour |
| Finance.SaveCategory | client/src/pages/Financas.tsx:935-952 | nothing happens when not editing or with a blank name; otherwise only the edited category changes, to the trimmed name and a palette colour |
| Finance.SaveCategoryKeepsReferences | client/src/pages/Financas.tsx:935-952 | renaming keeps every expense pointing at an existing category |
| Finance.EditCategoryUnchanged | client/src/pages/Financas.tsx:921-952 | opening a normalized category and saving it changes nothing |
| Finance.RestoredSettings | client/src/pages/Financas.tsx:422-446 | every setting becomes its initial value (`InitialSettings`: default categories and table fields, table above, both charts on, panel collapsed, empty name and first palette colour); only the category editor differs, closed but keeping its name and colour |
| Finance.RestoreIdempotent | client/src/pages/Financas.tsx:422-446 | restoring twice is restoring once |
| Finance.InitialSettings | client/src/pages/Financas.tsx:330-363 | the settings the page opens with and restores: default categories and table fields, table above, both charts on, panel collapsed, empty new-category name with the first palette colour, no category being edited |
| Finance.RestoreInitial | client/src/pages/Financas.tsx:422-446 | restoring the defaults on the page's opening settings gives them back |
| Finance.Page.constructor | client/src/pages/Financas.tsx:330-390 | the page starts with the default categories and settings, the given expenses, the first default category selected and no dialog |
| Finance.Page.LoadData | client/src/pages/Financas.tsx:498-565 | categories and expenses become `Load`'s result and the page is marked loaded |
| Finance.Page.SettleEffect | client/src/pages/Financas.tsx:712-724 | after the load, categories and expenses become `SettleCategories`' result; before it nothing changes |
| Finance.Page.SelectEffect | client/src/pages/Financas.tsx:738-743 | the form's category becomes `SelectedCategory` of the list |
| Finance.Page.OpenNewExpense | client/src/pages/Financas.tsx:392-400 | opens an empty form on the first category, not editing |
| Finance.Page.EditOpen | client/src/pages/Financas.tsx:875-883 | opens the form filled from the expense, editing its id |
| Finance.Page.SaveExpenseClick | client/src/pages/Financas.tsx:820-864 | on success the expenses become `SaveExpense`'s result and the form is cleared and closed; otherwise nothing changes |
| Finance.Page.ViewOpen | client/src/pages/Financas.tsx:866-868 | the expense is being viewed |
| Finance.Page.ViewClose | client/src/pages/Financas.tsx:870-873 | nothing is viewed and the remove dialog is closed |
| Finance.Page.RemoveViewedExpense | client/src/pages/Financas.tsx:1760-1769 | the viewed expense is removed and the view closes |
| Finance.Page.AddCategoryClick | client/src/pages/Financas.tsx:885-896 | categories become `AddCategory`'s result and the name field is cleared; a blank name changes nothing |
| Finance.Page.RemoveCategoryClick | client/src/pages/Financas.tsx:898-919 | categories and expenses become `RemoveCategory`'s result, the form takes the fallback id, and references stay valid |
| Finance.Page.StartEditCategoryClick | client/src/pages/Financas.tsx:921-929 | the editor becomes `StartEditCategory` of the category |
| Finance.Page.CancelEditCategory | client/src/pages/Financas.tsx:931-933 | the editor is closed and nothing else changes |
| Finance.Page.SaveCategoryClick | client/src/pages/Financas.tsx:935-952 | on success categories become `SaveCategory`'s result and the editor closes; otherwise nothing changes |
| Finance.Page.RestoreDefaults | client/src/pages/Financas.tsx:422-446 | the old settings are remembered, the settings are restored and the snackbar opens |
| Finance.Page.UndoRestore | client/src/pages/Financas.tsx:448-467 | the remembered settings come back, if any, and the snapshot is dropped |
| Pipeline.StripAfterPrefix | client/src/pages/Pipeline.tsx:92 | stripping a prefix ending in ':' from an id without ':' gives the id |
| Pipeline.DragIdsRoundTrip | client/src/pages/Pipeline.tsx:88-92 | `stripPrefix` inverts both drag ids; column and card drag ids are told apart by prefix |
| Pipeline.ColumnIndex | client/src/pages/Pipeline.tsx:278-283 | `findIndex` by column id: a matching index, or none when no column has the id |
| Pipeline.ColumnOfCard | client/src/pages/Pipeline.tsx:156-157 | the first column holding the card, or none |
| Pipeline.DealIndex | client/src/pages/Pipeline.tsx:323-325 | the first position of the card in a column that holds it |
| Pipeline.ColumnDragOver | client/src/pages/Pipeline.tsx:267-288 | a target that is not a column, the dragged column itself, a missing index or equal indices leave the board unchanged; otherwise the dragged column moves to the target's index by `arrayMove`; always a permutation |
| Pipeline.ColumnDropOnColumn | client/src/pages/Pipeline.tsx:278-286 | with distinct existing indices the board becomes `arrayMove(active, over)` and the dragged column lands at the over index |
| Pipeline.ColumnDropOnCard | client/src/pages/Pipeline.tsx:268-274 | dropping a column on a card is dropping it on the card's column |
| Pipeline.PlanCardMove | client/src/pages/Pipeline.tsx:290-342 | the planned card move has source, target and indices that exist on the board |
| Pipeline.WithoutDeal | client/src/pages/Pipeline.tsx:349 | no card with the id remains |
| Pipeline.CardMove | client/src/pages/Pipeline.tsx:290-360 | a card move keeps the number of columns and their ids and titles |
| Pipeline.CardMovePermutes | client/src/pages/Pipeline.tsx:290-360 | a card move neither loses nor duplicates a card: the board's cards are permuted |
| Pipeline.WithinUpdate | client/src/pages/Pipeline.tsx:322-336 | a same-column move is `arrayMove` inside that column only |
| Pipeline.AcrossUpdates | client/src/pages/Pipeline.tsx:339-359 | a cross-column move filters the card out of the source and splices it into the target |
| Pipeline.CardMoveAcross | client/src/pages/Pipeline.tsx:339-359 | after a cross-column move the card sits at the planned index of the target, and every other column is unchanged |
| Pipeline.PlanDropOnOwnColumn | client/src/pages/Pipeline.tsx:309-336 | dropping a card on its own column plans a move to the end of it |
| Pipeline.CardDropOnOwnColumn | client/src/pages/Pipeline.tsx:309-336 | dropping a card on its own column moves it to the end and changes no other column |
| Pipeline.DragOver | client/src/pages/Pipeline.tsx:260-361 | keeps the number of columns; no target, or a target equal to the dragged item, changes nothing |
| Pipeline.DragEnd | client/src/pages/Pipeline.tsx:363-446 | column drags are ignored at drop; a card drop is the drag-over move |
| Pipeline.TrimOr | client/src/pages/Pipeline.tsx:196-198 | a blank input keeps the fallback; otherwise the trimmed input |
| Pipeline.SaveDeal | client/src/pages/Pipeline.tsx:193-201 | an edited deal keeps its id |
| Pipeline.OpenSaveUnchanged | client/src/pages/Pipeline.tsx:172-207 | opening a deal and saving it unchanged leaves it as it was |
| Pipeline.SaveDealStable | client/src/pages/Pipeline.tsx:185-207 | saving keeps a deal's fields trimmed, and saving the same form twice is saving once |
| Pipeline.EditSave | client/src/pages/Pipeline.tsx:185-207 | the number of columns is kept |
| Pipeline.EditSaveEffect | client/src/pages/Pipeline.tsx:185-207 | only deals with the edited id change, and they keep their id; columns and card counts are unchanged |
| Pipeline.EditSaveTwice | client/src/pages/Pipeline.tsx:185-207 | saving the same form twice is saving it once |
| Pipeline.DealRemove | client/src/pages/Pipeline.tsx:209-220 | the number of columns is kept |
| Pipeline.DealRemoveEffect | client/src/pages/Pipeline.tsx:209-220 | the id is gone from every column, each column keeps the other cards in order, and ids and titles are unchanged |
| Pipeline.ColumnEditSave | client/src/pages/Pipeline.tsx:232-246 | only the edited column changes: the title unless blank, and the trimmed description; ids and cards are kept |
| Pipeline.ColumnRemove | client/src/pages/Pipeline.tsx:248-254 | an order-preserving subsequence without the id that keeps every other column |
| Pipeline.AddColumn | client/src/pages/Pipeline.tsx:452-463 | appends one empty column "Etapa n", where n is the new column count, and keeps the others |
| Pipeline.AddThenRemoveColumn | client/src/pages/Pipeline.tsx:248-463 | removing a column just added with a fresh id gives the board back |
| Pipeline.AddDeal | client/src/pages/Pipeline.tsx:465-485 | appends the placeholder deal to the target column only |
| Pipeline.AddThenRemoveDeal | client/src/pages/Pipeline.tsx:209-485 | removing a deal just added with a fresh id gives the board back |
| Pipeline.Board.constructor | client/src/pages/Pipeline.tsx:53-105 | the board starts as the default columns with nothing dragged or edited |
| Pipeline.Board.DragStart | client/src/pages/Pipeline.tsx:256-258 | records the dragged id and leaves the board and both dialogs alone |
| Pipeline.Board.DragOverEvent | client/src/pages/Pipeline.tsx:260-361 | the board becomes `DragOver` of the old board; the dragged id and both dialogs are unchanged |
| Pipeline.Board.DragEndEvent | client/src/pages/Pipeline.tsx:363-446 | the board becomes `DragEnd` of the old board and the drag ends; both dialogs are unchanged |
| Pipeline.Board.DragCancel | client/src/pages/Pipeline.tsx:448-450 | the drag ends; the board and both dialogs are unchanged |
| Pipeline.Board.EditOpen | client/src/pages/Pipeline.tsx:172-179 | opens the deal dialog filled from the deal; the board, the drag and the column dialog are unchanged |
| Pipeline.Board.EditDealForm | client/src/pages/Pipeline.tsx:98-102 | stores the typed deal fields and changes nothing else |
| Pipeline.Board.EditClose | client/src/pages/Pipeline.tsx:181-183 | closes the deal dialog; the board, the deal form, the drag and the column dialog are unchanged |
| Pipeline.Board.EditSaveClick | client/src/pages/Pipeline.tsx:185-207 | the board becomes `EditSave` of the form when a deal is edited, and the dialog closes; the form, the drag and the column dialog are unchanged |
| Pipeline.Board.DealRemoveClick | client/src/pages/Pipeline.tsx:209-220 | the board becomes `DealRemove` of the edited deal, and the dialog closes; the form, the drag and the column dialog are unchanged |
| Pipeline.Board.ColumnEditOpen | client/src/pages/Pipeline.tsx:222-226 | opens the column dialog filled from the column; the board, the drag and the deal dialog are unchanged |
| Pipeline.Board.EditColumnForm | client/src/pages/Pipeline.tsx:104-105 | stores the typed column fields and changes nothing else |
| Pipeline.Board.ColumnEditClose | client/src/pages/Pipeline.tsx:228-230 | closes the column dialog; the board, the column form, the drag and the deal dialog are unchanged |
| Pipeline.Board.ColumnEditSaveClick | client/src/pages/Pipeline.tsx:232-246 | the board becomes `ColumnEditSave` of the form, and the dialog closes; the form, the drag and the deal dialog are unchanged |
| Pipeline.Board.ColumnRemoveClick | client/src/pages/Pipeline.tsx:248-254 | the board becomes `ColumnRemove` of the edited column, and the dialog closes; the form, the drag and the deal dialog are unchanged |
| Pipeline.Board.AddColumnClick | client/src/pages/Pipeline.tsx:452-463 | the board becomes `AddColumn` of the old board; the drag and both dialogs are unchanged |
| Pipeline.Board.AddDealClick | client/src/pages/Pipeline.tsx:465-485 | the board becomes `AddDeal` of the old board; the drag and both dialogs are unchanged |
| PipelineData.RunPrefix | client/src/pages/PipelineData.tsx:51 | the longest prefix of numeric characters |
| PipelineData.NumberRun | client/src/pages/PipelineData.tsx:51-54 | no run iff there is no digit, point or comma; otherwise a non-empty run of them |
| PipelineData.ParseValue | client/src/pages/PipelineData.tsx:49-62 | text without a digit, point or comma is worth 0 |
| PipelineData.ParseValueNonNegative | client/src/pages/PipelineData.tsx:49-62 | a deal's value is never negative |
| PipelineData.PrefixIgnored | client/src/pages/PipelineData.tsx:50-57 | leading text without numerals or scale letters does not change the value |
| PipelineData.NatReadsBack | client/src/pages/PipelineData.tsx:49-62 | a whole number reads back as itself |
| PipelineData.PlainDigits | client/src/pages/PipelineData.tsx:55-56 | plain digits read as `Number` of them |
| PipelineData.ScaledDigits | client/src/pages/PipelineData.tsx:57-61 | digits followed by 'k' or 'm' are scaled by 1000 or 1000000 |
| PipelineData.ScaledNatReadsBack | client/src/pages/PipelineData.tsx:57-61 | "nk" reads as n thousand and "nm" as n million |
| PipelineData.CurrencyThousands | client/src/pages/PipelineData.tsx:49-62 | "R$ nk", the form the default board uses, reads as n thousand |
| PipelineData.Summary | client/src/pages/PipelineData.tsx:122-135 | one entry per column, in order, with its id, title, card count and summed value |
| PipelineData.TopStage | client/src/pages/PipelineData.tsx:151-156 | none for no stages; otherwise the first stage with the greatest value |
| PipelineData.PipelineTotals | client/src/pages/PipelineData.tsx:147-163 | the count and value are the sums over the stages; average 0 without deals, else total value over count; the top stage is the first with the greatest value (`TopStage`), and there is none for an empty board |
| PipelineData.SummaryCountsAll | client/src/pages/PipelineData.tsx:122-150 | the summed counts and values are those of every card on the board |
| PipelineData.RowsAreAllDeals | client/src/pages/PipelineData.tsx:165-175 | the flattened rows are the board's cards in column order |
| PipelineData.RowColumn | client/src/pages/PipelineData.tsx:165-175 | every row's stage and column id name the column the card sits in |
| PipelineData.DealSaved | client/src/pages/PipelineData.tsx:182-211 | a missing target column leaves the board unchanged; column ids, titles and order are kept |
| PipelineData.DealSavedEffect | client/src/pages/PipelineData.tsx:186-207 | the deal is removed from every column and appended to the target with its id and the form's name, value and owner |
| PipelineData.RemoveFromOne | client/src/pages/PipelineData.tsx:187-190 | removing a card that sits in one column changes only that column |
| PipelineData.DealSavedTrades | client/src/pages/PipelineData.tsx:182-211 | saving replaces the old card by the saved one and keeps the card count |
| PipelineData.Page.constructor | client/src/pages/PipelineData.tsx:75-78 | the page holds the loaded columns and no open deal |
| PipelineData.Page.OpenDeal | client/src/pages/PipelineData.tsx:177-180 | opens the form filled from the row |
| PipelineData.Page.EditForm | client/src/pages/PipelineData.tsx:78 | stores the edited form and changes nothing else |
| PipelineData.Page.DealSave | client/src/pages/PipelineData.tsx:182-211 | with a deal and a form, the board becomes `DealSaved` and the dialog closes; otherwise the board, the edited deal and the form are unchanged |
| LoginPage.Others | client/src/pages/Login.tsx:114 | keeps every entry with another email as often as it occurs and none with this email, in their order |
| LoginPage.OthersCounts | client/src/pages/Login.tsx:114 | every entry with another email keeps its number of copies; entries with this email have none |
| LoginPage.Persist | client/src/pages/Login.tsx:89-120 | nothing is written without an email; otherwise the user, the active session (only for a non-empty token) and the `NextAccounts` list are written |
| LoginPage.PersistTwice | client/src/pages/Login.tsx:89-120 | persisting the same user twice is persisting it once at the later time |
| LoginPage.NextAccounts | client/src/pages/Login.tsx:110-119 | the new entry comes first, followed by the first two earlier entries with another email, in order; at most 3 entries; a missing or unreadable list gives just the new entry |
| LoginPage.SameAccountTwice | client/src/pages/Login.tsx:110-116 | storing the same email twice is storing it once with the second entry |
| LoginPage.OthersAfterNext | client/src/pages/Login.tsx:110-116 | after a store, the entries with another email are the earlier ones that were kept |
| LoginPage.NextAccountsDistinct | client/src/pages/Login.tsx:110-116 | a list without duplicate emails never gains one |
| LoginPage.Page.PersistUser | client/src/pages/Login.tsx:89-120 | the stored user, session and account list become `Persist` of the old ones; the view, the requests and the auth signals are unchanged |
| LoginPage.Page.SignedIn | client/src/pages/Login.tsx:142-144 | the stored user, session and account list become `Persist` of the reply, one auth change is signalled and the view goes to the profile |
| LoginPage.Page.HandleLogin | client/src/pages/Login.tsx:131-155 | missing fields set an error and send nothing; a failure shows the conflict or invalid-credentials message and stores nothing; success stores `Persist` of the reply and signals one auth change |
| LoginPage.Page.HandleSignup | client/src/pages/Login.tsx:157-202 | missing fields or a mismatch send nothing; success stores `Persist` of the signup reply; a 409 retries login with the same credentials, storing `Persist` of its reply on success and showing the conflict or already-registered message otherwise; failures store nothing |
| LoginPage.Page.HandleRecoveryOpen | client/src/pages/Login.tsx:204-213 | opens recovery at the request step with the login email and cleared fields |
| LoginPage.Page.HandleRecoveryClose | client/src/pages/Login.tsx:215-219 | closes recovery and clears its messages |
| LoginPage.Page.HandleRecoveryRequest | client/src/pages/Login.tsx:221-243 | a missing email sends nothing; a returned token moves to the reset step; none shows the neutral notice |
| LoginPage.Page.HandleRecoveryReset | client/src/pages/Login.tsx:245-267 | missing fields or a mismatch send nothing; success closes recovery; failure shows the invalid-code message |
| Access.Flip | client/src/pages/AccessManagement.tsx:54-56 | negates entry i and keeps every other entry |
| Access.FlipTwice | client/src/pages/AccessManagement.tsx:52-58 | toggling the same entry twice restores the vector |
| Access.FlipsCommute | client/src/pages/AccessManagement.tsx:52-58 | toggles of different entries commute |
| Access.Panel.constructor | client/src/pages/AccessManagement.tsx:38-51 | every module is on, every role permits every module, nothing is pending |
| Access.Panel.Permitted | client/src/pages/AccessManagement.tsx:255-257 | a checkbox shows the role's entry, or on when no role is selected or the role has no vector |
| Access.Panel.ToggleModule | client/src/pages/AccessManagement.tsx:52-58 | flips only module i |
| Access.Panel.RequestModuleToggle | client/src/pages/AccessManagement.tsx:60-62 | records the index and the negation of its state, switching nothing |
| Access.Panel.CancelModuleToggle | client/src/pages/AccessManagement.tsx:326-342 | clears the pending request, switching nothing |
| Access.Panel.ConfirmModuleToggle | client/src/pages/AccessManagement.tsx:64-70 | no-op without a pending request; otherwise flips the recorded module to the recorded value and clears the request |
| Access.Panel.OpenRolePermissions | client/src/pages/AccessManagement.tsx:72-75 | selects the role and opens its dialog |
| Access.Panel.CloseRolePermissions | client/src/pages/AccessManagement.tsx:209-210 | closes the dialog and forgets the role |
| Access.Panel.ToggleRolePermission | client/src/pages/AccessManagement.tsx:77-87 | no-op without a role; otherwise flips one entry of that role's vector, all-on when absent; other roles are untouched |
| Settings.SortIsCategoriesFirst | client/src/components/SettingsDialog.tsx:53-57 | the stable sort by the comparator puts the "categories" sections first and keeps both groups in order |
| Settings.SortPermutes | client/src/components/SettingsDialog.tsx:53-57 | the ordered sections are a permutation of the input |
| Settings.OrderedSections | client/src/components/SettingsDialog.tsx:53-57 | permutation, "categories" first when present, and the other sections in their input order |
| Settings.CategoriesComeFirst | client/src/components/SettingsDialog.tsx:53-57 | a "categories" section comes first |
| Settings.OthersKeepOrder | client/src/components/SettingsDialog.tsx:53-57 | the other sections keep their relative order |
| Settings.InitialExpanded | client/src/components/SettingsDialog.tsx:60-62 | the first ordered key with 2 or more sections, else none |
| Settings.RenderLayout | client/src/components/SettingsDialog.tsx:155-157 | exactly one section renders plainly; otherwise the ordered sections render as an accordion |
| Settings.Dialog.constructor | client/src/components/SettingsDialog.tsx:53-62 | the expanded section starts by the initial rule |
| Settings.Dialog.OnAccordionChange | client/src/components/SettingsDialog.tsx:91-93 | expanding makes that section the only expanded one; collapsing leaves none |
| Settings.Dialog.Close | client/src/components/SettingsDialog.tsx:64-68 | calls `onClose` once and resets the expanded section by the initial rule |
| Support.FilteredItems | client/src/pages/Support.tsx:84-93 | a blank query keeps every item; otherwise an order-preserving subsequence holding every item containing the term as often as it occurs, and no other |
| Support.EveryItemMatchesEmpty | client/src/pages/Support.tsx:89-92 | every item contains the empty term |
| Support.LongerTermNarrows | client/src/pages/Support.tsx:89-92 | an item matching a longer term matches its prefix |
| CategoryFilter.SelectedValue | client/src/components/CategoryFilter.tsx:41 | every category whose id is selected, as often as it occurs, and no other, in list order |
| CategoryFilter.ChangedIds | client/src/components/CategoryFilter.tsx:42 | the ids of the chosen options, in their order |
| CategoryFilter.SelectionRoundTrip | client/src/components/CategoryFilter.tsx:41-42 | re-selecting the emitted ids gives the same value |
| CategoryFilter.RenderTags | client/src/components/CategoryFilter.tsx:80-104 | at most the first two options are chips; the hidden count is the rest, never negative; "+N" appears iff it is positive |
| CategoryFilter.CounterReadsBack | client/src/components/CategoryFilter.tsx:94-96 | the "+N" label reads back as the hidden count |

## Left out

- HTTP, cookies, CORS and `app.listen` are left out. Handlers return a status and a payload; cookies are not set or cleared.
- The SQLite schema, pragmas and additive column migrations are left out. The tables are in-memory state. Only the role seed is modelled, as the initial database.
- The module table handlers (`GET`/`PATCH /api/access/modules`) and `GET /api/access/users` are left out; they are plain reads and writes with no rule to state.
- The other preference columns and the profile columns of `PUT /api/profile` are left out. Only the parts that feed other rules are modelled: the email check, the name/email update and `single_session`.
- SHA-256, bcrypt and `crypto.randomBytes` are parameters. Collision resistance is assumed through `TokenHashInjective`, as a requirement of `AuthProperties.LogoutKeepsOtherTokens` only. bcrypt's salt is not modelled: verification is equality of hashes.
- The clock, `Date.now()` and `nanoid` are parameters. Freshness of generated ids is a precondition where a lemma needs it.
- Timestamps are integers in milliseconds, not ISO strings. Dates are compared as numbers.
- JSON text is not modelled. Stored documents are `Json` values, and a stored document reads back unchanged; the parse failure that answers null is not modelled.
- Network and `localStorage` calls, and the 600 ms debounced saves, are left out. Loaded data comes in as parameters, and the data to write back is returned.
- `darkenColor`, `formatValue`, the charts and the theme are left out. They are presentation with floating-point rounding.
- Amounts are real numbers. IEEE-754 rounding of sums and products is not modelled.
- `Number()` covers unsigned decimals with an optional sign, surrounding white space and the empty string. Exponents, hexadecimal, `Infinity` and NaN spellings are not modelled.
- `toLowerCase` covers ASCII and Latin-1 capitals. Other Unicode case mappings are not modelled.
- `totalsByMonth` and `sortedExpenses` are left out: they depend on `Date` parsing and the local time zone. `FilteredExpenses` takes the already sorted list.
- The palette (`CATEGORY_COLOR_OPTIONS`, defined in a file outside this model) is the `palette` parameter.
- The default expenses are a constructor parameter, since their dates come from the clock.
- The edit permission that `getStoredPermissions` reads from storage is the `canEdit` parameter.
- `String(amount)` is the `amountText` parameter of `Finance.Page.EditOpen`.
- `LEGACY_FINANCE_NAMES` is left out: it is never used.
- In the legacy id map, keys inherited from `Object.prototype` (such as `toString`) are not modelled.
- Expenses loaded from storage are taken as typed records. Their fields are not re-validated; the source does not validate them either.
- Finance.SortByValue: states that the result is sorted largest first and is a permutation, but not that equal values keep their order.
- The `categories` member that the pipeline data page stores alongside the board is left out.
- Pipeline.ColumnIndex: duplicate column ids are not excluded. Lemmas about column moves require distinct ids where the source relies on them.
- Pipeline.CardMove: on a board where two columns share an id, a move inside one column also runs `arrayMove` on the other column with that id, and inserts `undefined` there when that column is shorter. `MoveInColumn` leaves such a shorter column unchanged, so the model follows the source only on boards with distinct column ids.
- Settings.OrderedSections: section keys are taken as unique, as the `key` prop documents (client/src/components/SettingsDialog.tsx:16). With two "categories" sections the source's comparator is inconsistent and the browser's sort order is not modelled.
- Controlled-input setters are left out, except the dialog form edits: each only stores the typed text.
- The FAQ items are a parameter of `Support.FilteredItems`, not the constant list.
- Pointer-drag scrolling, dnd-kit sensors and the drag overlay are left out.
