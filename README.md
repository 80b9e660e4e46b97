# Vinscent-MVP core, modelled in Dafny

Vinscent-MVP is a magazine CMS. Readers browse magazine pages, and an admin area lets editors write and publish magazines as ordered blocks. There is no account system. The admin API is gated by a daily token: for a given day and role, it is the first 16 hex characters of `SHA-256(date|birthDate|phoneLastFour|role|PROJECT_SECRET)`, written 8-4-4. The server recomputes every role's token to check a request. A command-line tool and an interactive tool print the token of the day.

This project models that token engine and the logic that surrounds it:

- **Token engine and tools:**
  - the server registry, derivation, validation and role lookup (`TokenGenerator`);
  - the command-line generator, with its registry, argument dispatch, verification listing and self-test (`TokenCli`);
  - the interactive generator, with input checks and credential lookup (`TokenInteractive`).
- **Admin API:**
  - the magazine list and create endpoint (`ControlMagazines`);
  - the public cards endpoint (`CardsRoute`);
  - the weekly and monthly view statistics (`Stats`);
  - the per-client rate limiter in the middleware (`RateLimiter`).
- **Magazine storage:**
  - create, update and delete over abstract magazine and block tables (`Management`);
  - the row helpers (`MagazineHelpers`).
- **Admin UI logic:**
  - the token gate of the admin layout (`AdminLayout`) and the magazine list (`AdminList`);
  - the block editor and draft validation (`BlockEditor`), credits conversion (`Credits`) and the preview page (`Preview`);
  - the dashboard's log filter (`AdminDashboard`);
  - the query-key factories and optimistic delete (`QueryClient`, `AdminQueries`).
- **Reader UI logic:**
  - the pagination control (`Pagination`) and the URL-driven list page (`MagazineList`);
  - the 3D carousel (`Carousel3D`) and the slide timer and slide carousel hooks (`SlideTimer`);
  - the hero slide's swipe handling (`HeroSlide`);
  - the mobile card (`MobileCard`), recommendations (`Recommendations`) and relative times (`RelativeTime`).
- **Shared modules:** `Wrappers` (Option and Result), `Text` (the JavaScript string and number built-ins the source relies on) and `Sorting` (the stable insertion that stands for `Array.prototype.sort`).

Pure code is modelled as functions with lemmas. Code that changes state in place is modelled as classes with `modifies` frames:
- the slide timer and carousels;
- the hero slide;
- the rate limiter;
- the admin layout;
- the admin query cache;
- the interactive generator's prompt session;
- the block editor;
- the list page;
- the magazine tables.

The hash, the clock and the random choices are parameters of the model.

## Model

| member | source | states |
|---|---|---|
| TokenGenerator.ServerConfig | src/lib/auth/token-generator.ts:43-69 | the server registry holds four members, developer, designer, marketing and pm, in that order |
| TokenGenerator.ServerDefaults | src/lib/auth/token-generator.ts:49-63 | with no environment overrides, designer, marketing and pm share one birth date and one phone number |
| TokenGenerator.Lookup | src/lib/auth/token-generator.ts:78-81 | `TEAM_INFO[role]` is a registered member with that role, and it is absent iff no member has that role |
| TokenGenerator.Ingredients | src/lib/auth/token-generator.ts:84-90 | when no field contains `\|`, splitting the joined string at `\|` gives back the date, birth date, phone digits, role and secret |
| TokenGenerator.FormatToken | src/lib/auth/token-generator.ts:96 | a token is 18 characters with hyphens at positions 8 and 13 |
| TokenGenerator.TokenFor | src/lib/auth/token-generator.ts:83-98 | a member's token exists iff the hash succeeds, has the 8-4-4 lower-case hex shape, and otherwise carries the hash's error |
| TokenGenerator.GenerateDailyToken | src/lib/auth/token-generator.ts:77-99 | the derivation fails with "Invalid role" exactly when the role is unregistered; a token is 8-4-4 lower-case hex digits |
| TokenGenerator.FormatTokenInjective | src/lib/auth/token-generator.ts:96 | two tokens are equal iff their digests agree on the first 16 hex digits |
| TokenGenerator.IngredientsInjective | src/lib/auth/token-generator.ts:84-90 | when no field contains `\|`, the joined ingredient string determines date, member and secret |
| TokenGenerator.DistinctRolesDistinctIngredients | src/lib/auth/token-generator.ts:84-90 | members with different roles hash different strings, even with the same birth date, phone and secret |
| TokenGenerator.DateKey | src/lib/auth/token-generator.ts:103 | the date key holds no hyphen and at most ten characters |
| TokenGenerator.DateKeyOfIsoTimestamp | src/lib/auth/token-generator.ts:103 | an ISO timestamp `YYYY-MM-DD…` gives the eight digits `YYYYMMDD` |
| TokenGenerator.GetTodayToken | src/lib/auth/token-generator.ts:101-105 | today's token exists only for a registered role and has the token shape |
| TokenGenerator.GetTokenRole | src/lib/auth/token-generator.ts:138-155 | the loop with early return yields the role of the first member whose token matches, and null when none matches or a derivation throws |
| TokenGenerator.ValidateToken | src/lib/auth/token-generator.ts:107-131 | with a role, true iff that role's token is the given one; without, true iff `getTokenRole` finds a role |
| TokenGenerator.AnyMemberMatches | src/lib/auth/token-generator.ts:117-125 | the role-less loop answers true iff the `getTokenRole` sweep finds a role: false on a derivation error before a match or when none matches |
| TokenGenerator.TokenRole | src/lib/auth/token-generator.ts:138-155 | a role found by `getTokenRole` is always a registered role |
| TokenGenerator.TokenRoleIsFirstMatch | src/lib/auth/token-generator.ts:143-148 | the role is `r` iff `r` belongs to the first member whose token matches, every earlier derivation having succeeded and differed |
| TokenGenerator.TokenRoleAbortsOnError | src/lib/auth/token-generator.ts:151-154 | a derivation error before any match gives null for the whole sweep, even when a later member would match |
| TokenGenerator.TokenRoleNone | src/lib/auth/token-generator.ts:143-154 | null iff every member's token was derived and differs, or a derivation threw before a match |
| TokenGenerator.TokenRoleRoundTrip | src/lib/auth/token-generator.ts:138-150 | when every derivation succeeds and the tokens are distinct, each member's own token resolves to that member's role |
| TokenCli.CliConfig | scripts/token-generator.js:24-42 | the script's registry holds developer, marketing and pm, in that order, and no designer; it uses its own default secret |
| TokenCli.CliMember | scripts/token-generator.js:51-53 | `TEAM_INFO[role]` is present iff the role is registered or is a name every object inherits (such as `constructor`); a registered role gives its own member |
| TokenCli.CliGenerateDailyToken | scripts/token-generator.js:50-75 | `Invalid role` exactly when `TEAM_INFO[role]` is falsy; for a registered role it is the server's derivation; a result has the token shape |
| TokenCli.CliTodayToken | scripts/token-generator.js:82-86 | for a registered role, the server's `getTodayToken` with the same registry; `Invalid role` exactly when `TEAM_INFO[role]` is falsy |
| TokenCli.CliDerivationFailsOnlyForUnknownRoles | scripts/token-generator.js:50-75 | with Node's hash, which never throws, a derivation fails iff the role is neither registered nor an inherited name |
| TokenCli.InheritedNameDerivesToken | scripts/token-generator.js:50-75 | an inherited name that is not registered derives a token from the date and the secret alone, hashing `date\|\|\|\|secret` |
| TokenCli.ConstructorIsInherited | scripts/token-generator.js:166 | `constructor` is none of the script's roles, yet `role in TEAM_INFO` accepts it |
| TokenCli.ConstructorPrintsToken | scripts/token-generator.js:163-178 | `token-generator.js constructor` passes the role check and obtains a token instead of exiting 1 |
| TokenCli.EntryIsErrorIffFailed | scripts/token-generator.js:94-100 | an entry starts with `Error:` iff its derivation failed, since a token starts with a hex digit |
| TokenCli.AllTodayTokens | scripts/token-generator.js:91-103 | one entry per registry role, in registry order |
| TokenCli.CliTokensAreServerTokens | scripts/token-generator.js:91-103 | each listed token is the server's token for that role, or the error text of the server's derivation |
| TokenCli.TodayEntry | scripts/token-generator.js:95-99 | one turn of the loop: the role with its token, or with `Error: ` and the caught message |
| TokenCli.GetAllTodayTokens | scripts/token-generator.js:91-103 | the loop builds exactly `AllTodayTokens`: every role in registry order, and it goes on after a failure |
| TokenCli.Verifiable | scripts/token-generator.js:212-216 | `--verify` checks exactly the entries that do not start with `Error:` |
| TokenCli.ErrorCount | scripts/token-generator.js:212-216 | the skipped entries and the checked ones together are all the entries; none is skipped iff no entry starts with `Error:` |
| TokenCli.VerifySweep | scripts/token-generator.js:212-222 | the loop sends exactly `Verifiable(allTokens)` to the server and skips `ErrorCount(allTokens)` entries |
| TokenCli.VerifiableRoles | scripts/token-generator.js:210-222 | every entry sent to the server carries a registered role |
| TokenCli.RunTestsWith | scripts/token-generator.js:260-295 | the self-test exits 0 iff every derivation it makes succeeds, and exits 1 otherwise; on success, the consistency check holds and the uniqueness check compares the two roles' tokens |
| TokenCli.RunTestsAsWritten | scripts/token-generator.js:260-295 | the self-test as written exits 0 iff the developer derivations and a `designer` derivation succeed, and 1 otherwise; with no registered `designer` it always exits 1 |
| TokenCli.UnregisteredDesignerFails | scripts/token-generator.js:50-54 | without a registered `designer`, `TEAM_INFO['designer']` is undefined (the name is not inherited either), so its derivation throws |
| TokenCli.TestsAsWrittenAlwaysFail | scripts/token-generator.js:24-40 | in the script's registry, whatever the environment, the derivation for `designer` fails |
| TokenCli.RunTests | scripts/token-generator.js:260-295 | the corrected self-test compares developer with marketing; it exits 0 iff its derivations succeed, and then it reports consistency; with a hash that never fails and both roles registered it exits 0 |
| TokenCli.CorrectedTestDerivationsSucceed | scripts/token-generator.js:50-75 | with a hash that never fails, the developer and marketing derivations of the corrected self-test succeed whenever both roles are registered |
| TokenCli.TestsPass | scripts/token-generator.js:260-295 | with the script's own registry and Node's hash, every derivation of the corrected self-test succeeds |
| TokenCli.RunMain | scripts/token-generator.js:150-257 | a first argument that passes `role in TEAM_INFO` gives that name's token, or the derivation's error; one that fails it exits 1 before any derivation; `--verify` checks `Verifiable(AllTodayTokens)`, skips `ErrorCount(AllTodayTokens)` and sends only registered roles; otherwise it lists `AllTodayTokens` |
| TokenCli.Cli | scripts/token-generator.js:297-306 | `--test` anywhere runs `runTests()` as written, which exits 0 iff a `designer` token can be derived, and exits 1 whenever `designer` is not registered, as in the script's own registry; otherwise a role argument exits 1 iff it fails `role in TEAM_INFO` or its derivation fails; `--verify` and the listing exit 0 |
| TokenCli.CliCorrected | scripts/token-generator.js:297-306 | the entry point with the corrected self-test: `--test` exits 0 iff the developer and marketing derivations succeed; every other argument behaves as in `Cli` |
| TokenInteractive.FindRoleByCredentials | scripts/token-generator-interactive.js:65-72 | the loop with early return equals `CredentialsRole`: the first member whose birth date and phone both match |
| TokenInteractive.CredentialsRoleSound | scripts/token-generator-interactive.js:65-72 | a returned role belongs to a member matching on both fields, with no earlier member matching; null iff no member matches both fields |
| TokenInteractive.CredentialsRole | scripts/token-generator-interactive.js:65-72 | no role iff no member matches on both birth date and phone |
| TokenInteractive.CredentialsRoleRoundTrip | scripts/token-generator-interactive.js:65-72 | when no two members share both credentials, each member's own pair leads back to that member's role |
| TokenInteractive.Session.constructor | scripts/token-generator-interactive.js:111-122 | a run starts by asking for the birth date, with today's date key and nothing decided |
| TokenInteractive.Session.AnswerBirthDate | scripts/token-generator-interactive.js:122-132 | a trimmed answer of exactly eight digits is kept; any other answer ends the run with status 1 |
| TokenInteractive.Session.AnswerPhone | scripts/token-generator-interactive.js:135-169 | a trimmed answer of 10 or 11 digits is looked up with the birth date; no match, or a bad phone number, exits 1 without deriving; a match derives that role's token |
| TokenInteractive.Session.PressEnter | scripts/token-generator-interactive.js:88-94 | Enter ends the run with the status already chosen, changing nothing else |
| Pagination.Pages | src/components/ui/Pagination.tsx:229-238 | `lo..hi` page buttons in order, each active iff it is the current page |
| Pagination.PaginationItems | src/components/ui/Pagination.tsx:82-263 | the buttons pushed one by one are the strip: none for one page or fewer, else first (if shown), previous, the numbered part, next and last (if shown) |
| Pagination.NumberedItems | src/components/ui/Pagination.tsx:111-239 | the branch-by-branch loops build the numbered part: all pages when seven or fewer or ellipses are off, otherwise the front, back or middle layout |
| Pagination.FrontItems | src/components/ui/Pagination.tsx:114-145 | a current page of 3 or less gives pages 1 to 4, an ellipsis and the last page |
| Pagination.BackItems | src/components/ui/Pagination.tsx:146-175 | a current page within two of the end gives page 1, an ellipsis and the last four pages |
| Pagination.MiddleItems | src/components/ui/Pagination.tsx:176-225 | otherwise page 1, an ellipsis, the current page with its siblings clipped to the open range (1, total), an ellipsis and the last page |
| Pagination.PagesWellSpaced | src/components/ui/Pagination.tsx:229-238 | a run of page buttons is consecutive |
| Pagination.BodyLayout | src/components/ui/Pagination.tsx:111-238 | with at most one sibling, the numbered part starts at page 1 and ends at the last page, pages increase, and an ellipsis stands only where pages are left out |
| Pagination.FrontLayout | src/components/ui/Pagination.tsx:114-145 | the front layout keeps that rule |
| Pagination.BackLayout | src/components/ui/Pagination.tsx:146-175 | the back layout keeps that rule |
| Pagination.MiddleLayout | src/components/ui/Pagination.tsx:176-225 | the middle layout keeps that rule |
| Pagination.ActiveIsCurrent | src/components/ui/Pagination.tsx:111-238 | every active button is the current page's; one exists when the current page lies in range |
| Pagination.CurrentShown | src/components/ui/Pagination.tsx:111-238 | the current page always appears in the numbered part |
| Pagination.NeighboursShown | src/components/ui/Pagination.tsx:176-225 | with the default single sibling, the pages next to the current one always appear |
| Pagination.PageChange | src/components/ui/Pagination.tsx:309-313 | `onPageChange` fires iff not loading and the page is non-null, differs from the current one and lies in 1..total |
| Pagination.ButtonsStayInRange | src/components/ui/Pagination.tsx:88-107 | every button leads inside 1..total; a click on any other page reaches `onPageChange`; a disabled end button points at the current page |
| Pagination.InfoRange | src/components/ui/Pagination.tsx:447-449 | the start exists iff items-per-page is truthy; the end exists iff both counts are truthy |
| Pagination.InfoRangeWithinItems | src/components/ui/Pagination.tsx:447-449 | on an existing page, 1 <= start <= end <= total items, and every page before the last is full |
| AdminList.Window | src/components/admin/MagazineAdminList.tsx:155-170 | buttons `lo..hi` in order, only the current page primary |
| AdminList.RenderPagination | src/components/admin/MagazineAdminList.tsx:133-186 | nothing iff pagination is absent or has one page or fewer; otherwise previous (if page > 1), the window, next (if page < total) |
| AdminList.AdminStripShape | src/components/admin/MagazineAdminList.tsx:140-185 | on a page in range: one to five numbers, including the current page, which is the only primary one; previous leads to page-1 and next to page+1, both in range |
| AdminList.HandlePreview | src/components/admin/MagazineAdminList.tsx:57-66 | a published magazine opens `/magazine/{id}`; a draft opens the editor for its id |
| AdminList.PreviewPathRoundTrip | src/components/admin/MagazineAdminList.tsx:60 | the id read back from the opened path is the magazine's id |
| AdminList.HandleDeleteClick | src/components/admin/MagazineAdminList.tsx:33-46 | the delete mutation is called, with the magazine's id, iff the user confirmed |
| BlockEditor.EmptyContent | src/app/admin/magazines/create/CreateMagazineContent.tsx:147-149 | a new text block gets empty markdown, a new image block an empty image |
| BlockEditor.FindIndex | src/app/admin/magazines/create/CreateMagazineContent.tsx:154 | the index of the first block with the id, or -1 iff there is none |
| BlockEditor.Renumbered | src/app/admin/magazines/create/CreateMagazineContent.tsx:158-160 | every block keeps its fields and gets its 1-based position as its order |
| BlockEditor.Without | src/app/admin/magazines/create/CreateMagazineContent.tsx:172 | no block left carries the deleted id |
| BlockEditor.Updated | src/app/admin/magazines/create/CreateMagazineContent.tsx:181-185 | the list keeps its length |
| BlockEditor.Renumber | src/app/admin/magazines/create/CreateMagazineContent.tsx:174-176 | the `forEach` that writes `order = index + 1` gives `Renumbered` |
| BlockEditor.AppendShape | src/app/admin/magazines/create/CreateMagazineContent.tsx:143-164 | without an `afterBlockId`, every block stays and the new one comes last with order n+1, so orders 1..n become 1..n+1 |
| BlockEditor.InsertAfterShape | src/app/admin/magazines/create/CreateMagazineContent.tsx:153-161 | with an `afterBlockId`, the new block stands right behind the first block with that id, the others keep their order, and the orders are 1..n+1 |
| BlockEditor.InsertAfterMissingGoesFirst | src/app/admin/magazines/create/CreateMagazineContent.tsx:154-156 | an id not in the list puts the new block first, because `findIndex` gives -1 |
| BlockEditor.WithoutCount | src/app/admin/magazines/create/CreateMagazineContent.tsx:172 | the filter removes exactly as many blocks as carry the id |
| BlockEditor.WithoutKeeps | src/app/admin/magazines/create/CreateMagazineContent.tsx:172 | every block with another id survives the filter |
| BlockEditor.DeleteShape | src/app/admin/magazines/create/CreateMagazineContent.tsx:171-178 | deleting removes exactly the blocks with the id, keeps every other block and renumbers the rest to 1..n |
| BlockEditor.AddThenDelete | src/app/admin/magazines/create/CreateMagazineContent.tsx:143-178 | deleting a block just added under a fresh id gives back the original list, renumbered |
| BlockEditor.UpdateShape | src/app/admin/magazines/create/CreateMagazineContent.tsx:181-185 | only the content of the blocks with the id changes; ids, kinds and orders stay, so 1..n stays 1..n |
| BlockEditor.UpdateIdempotent | src/app/admin/magazines/create/CreateMagazineContent.tsx:181-185 | saving the same content twice equals saving it once |
| BlockEditor.NonEmptyOrNull | src/app/admin/magazines/create/CreateMagazineContent.tsx:247 | `s.trim() \|\| null`: null iff blank, else the trimmed text |
| BlockEditor.ToDraftBlock | src/app/admin/magazines/create/CreateMagazineContent.tsx:253-261 | a draft block keeps kind and order; markdown only for text, image URL and source only for images |
| BlockEditor.ToDraftBlocks | src/app/admin/magazines/create/CreateMagazineContent.tsx:253-261 | one draft block per block, in order |
| BlockEditor.EditTarget | src/app/admin/magazines/create/CreateMagazineContent.tsx:37 | the edit target is a truthy id parameter that parses to a non-zero number |
| BlockEditor.Editor.constructor | src/app/admin/magazines/create/CreateMagazineContent.tsx:47-69 | the initial form: empty fields, brand `Vinscent`, category `official`, no blocks, menu closed |
| BlockEditor.Editor.AddBlock | src/app/admin/magazines/create/CreateMagazineContent.tsx:143-168 | the list becomes `Added(...)`, the menu closes, the form fields stay |
| BlockEditor.Editor.DeleteBlock | src/app/admin/magazines/create/CreateMagazineContent.tsx:171-178 | the list becomes `Deleted(...)`; nothing else changes |
| BlockEditor.Editor.UpdateBlockContent | src/app/admin/magazines/create/CreateMagazineContent.tsx:181-185 | the list becomes `Updated(...)`; nothing else changes |
| BlockEditor.Editor.AddBlockAfter | src/app/admin/magazines/create/CreateMagazineContent.tsx:188-191 | the menu opens and remembers the block to insert after; the blocks and every form field stay as they were |
| BlockEditor.Editor.CloseBlockTypeMenu | src/app/admin/magazines/create/CreateMagazineContent.tsx:194-197 | the menu closes and forgets the block; the blocks and every form field stay as they were |
| BlockEditor.Editor.AddInitialBlock | src/app/admin/magazines/create/CreateMagazineContent.tsx:200-204 | an empty list gets one empty text block with order 1 and the form fields are untouched; a non-empty list is left alone |
| BlockEditor.Editor.DraftSave | src/app/admin/magazines/create/CreateMagazineContent.tsx:232-275 | refused for a blank title, then for no blocks, then for no login token; otherwise a PUT in edit mode and a POST else, with the trimmed fields, status `draft` and the blocks' draft form |
| BlockEditor.LoadBlocks | src/app/admin/magazines/create/CreateMagazineContent.tsx:97-111 | one block per stored block, with the id `block-{now}-{index}`, the stored kind, and the stored order or else the 1-based position |
| BlockEditor.LoadedIdsDistinct | src/app/admin/magazines/create/CreateMagazineContent.tsx:101 | loaded blocks get pairwise distinct ids |
| BlockEditor.LoadBlocksSequential | src/app/admin/magazines/create/CreateMagazineContent.tsx:109 | blocks stored with orders 1..n, or without orders, load with orders 1..n |
| Credits.ParseLine | src/app/admin/magazines/preview/page.tsx:46-55 | role and name come out trimmed; a line without a colon becomes the trimmed line under the role `기타` |
| Credits.NonBlankLines | src/app/admin/magazines/preview/page.tsx:45 | only non-blank lines of the input remain |
| Credits.ParseEach | src/app/admin/magazines/preview/page.tsx:46-55 | one credit per line, in order |
| Credits.KeepComplete | src/app/admin/magazines/preview/page.tsx:56 | only credits with a non-empty role and name remain |
| Credits.ParseCredits | src/app/admin/magazines/preview/page.tsx:40-57 | blank text gives `[]`; at most one credit per non-blank line; every credit has a non-empty role and name |
| Credits.CreditLines | src/app/admin/magazines/create/CreateMagazineContent.tsx:88-91 | one `role: name` line per credit, in order |
| Credits.LoadedCreditsText | src/app/admin/magazines/create/CreateMagazineContent.tsx:87-95 | a stored array is serialised, a stored string is kept, and anything else leaves the field as it was |
| Credits.ParseLineAtFirstColon | src/app/admin/magazines/preview/page.tsx:47-54 | a line splits at its first colon, so the name may contain further colons |
| Credits.ParseCreditLine | src/app/admin/magazines/preview/page.tsx:46-55 | a representable credit's line is non-blank and parses back to the credit |
| Credits.ParseCreditLines | src/app/admin/magazines/preview/page.tsx:43-56 | the lines of representable credits pass both filters and parse back to the credits |
| Credits.CreditsRoundTrip | src/app/admin/magazines/preview/page.tsx:40-57 | parsing the editor's serialisation gives back the credits, when each role and name is trimmed and non-empty, roles have no colon and neither has a newline |
| Preview.OrElse | src/app/admin/magazines/preview/page.tsx:177 | `v \|\| fallback` for a string |
| Preview.OrNull | src/app/admin/magazines/preview/page.tsx:178 | `v \|\| null` for a string |
| Preview.SaveBlock | src/app/admin/magazines/preview/page.tsx:163-171 | the kind and order are kept; markdown is set only for text, image URL and source only for images, missing values becoming `''` |
| Preview.SaveBlocks | src/app/admin/magazines/preview/page.tsx:162-174 | one converted block per block, in order |
| Preview.ConvertBlocksToMagazineData | src/app/admin/magazines/preview/page.tsx:159-187 | sorting the blocks in place and mapping them gives the request body `MagazineDataOf` |
| Preview.MagazineDataOf | src/app/admin/magazines/preview/page.tsx:159-187 | the request body is published, keeps the category and holds one block per preview block |
| Preview.MagazineDataShape | src/app/admin/magazines/preview/page.tsx:159-185 | the body is always `published`, with a non-empty title and brand; one block per editor block, in ascending order; blocks numbered 1..n keep their list order |
| Preview.MagazineDataBlocksPermuted | src/app/admin/magazines/preview/page.tsx:160-161 | the blocks sent are a permutation of the editor's blocks, and blocks with equal orders keep their relative order |
| Preview.HandleSaveOutcome | src/app/admin/magazines/preview/page.tsx:90-135 | saving aborts iff there are no blocks, never for an empty conversion, and for a missing token; it sends a PUT exactly in edit mode with a magazine id |
| Preview.HandleSave | src/app/admin/magazines/preview/page.tsx:90-135 | a request is made only with blocks and a non-empty token, which it carries; an update names the magazine being edited |
| Preview.SavedCreditsComplete | src/app/admin/magazines/preview/page.tsx:183 | every credit sent has a non-empty role and name |
| Sorting.InsertByKey | src/app/admin/magazines/preview/page.tsx:160-161 | inserting one element adds exactly that element to the multiset |
| Sorting.SortByKey | src/app/admin/magazines/preview/page.tsx:160-161 | `sort((a, b) => a.order - b.order)` keeps the length and the multiset of elements |
| Sorting.InsertKeepsSorted | src/app/admin/magazines/preview/page.tsx:160-161 | inserting into an ascending sequence keeps it ascending |
| Sorting.SortByKeySorted | src/app/admin/magazines/preview/page.tsx:160-161 | the result is in ascending key order |
| Sorting.SortByKeyOfSorted | src/app/admin/magazines/preview/page.tsx:160-161 | a sequence already in order comes back unchanged |
| Sorting.SortByKeyStable | src/app/admin/magazines/preview/page.tsx:160-161 | elements with equal keys keep their relative order, as `Array.prototype.sort` promises |
| Sorting.InsertLast | src/app/admin/magazines/preview/page.tsx:160-161 | the inner loop on the array puts `a[i]` into the sorted prefix as `InsertByKey` does, leaving the rest of the array alone |
| Sorting.SortInPlace | src/app/api/control/magazines/route.ts:73-77 | sorting the array in place leaves `SortByKey` of its old contents |
| MagazineHelpers.NullIfEmpty | src/lib/db/operations/magazines/helpers.ts:125-127 | `v \|\| null`: null iff absent or empty, otherwise the value itself |
| MagazineHelpers.RowsOf | src/lib/db/operations/magazines/helpers.ts:119-129 | exactly one row per block, in order |
| MagazineHelpers.RowMapping | src/lib/db/operations/magazines/helpers.ts:119-129 | a row copies magazine id, kind and order; text only for text blocks and image URL and source only for image blocks, empty values becoming null |
| MagazineHelpers.ExtractMagazineThumbnail | src/lib/db/operations/magazines/helpers.ts:25-51 | nothing iff no image block of the magazine has a non-empty URL; otherwise such a block with the smallest order |
| MagazineHelpers.TransformToMagazineCard | src/lib/db/operations/magazines/helpers.ts:56-78 | no thumbnail gives null; otherwise the card copies the magazine's fields and carries the thumbnail |
| MagazineHelpers.FilterValid | src/lib/db/operations/magazines/helpers.ts:182-184 | never more cards than given |
| MagazineHelpers.FilterValidMembers | src/lib/db/operations/magazines/helpers.ts:182-184 | a card is kept iff it was given and not null |
| MagazineHelpers.FilterValidAppend | src/lib/db/operations/magazines/helpers.ts:182-184 | filtering distributes over concatenation, so order is kept |
| MagazineHelpers.FilterValidAllPresent | src/lib/db/operations/magazines/helpers.ts:182-184 | a list without null passes whole |
| MagazineHelpers.ParseCreditsColumn | src/lib/db/operations/magazines/helpers.ts:102-111 | null or empty input gives `[]`, and so does a parse failure; otherwise the parsed array |
| MagazineHelpers.StoredCreditsRoundTrip | src/lib/db/operations/magazines/helpers.ts:102-111 | with a JSON codec that reads back what it writes, stored credits read back unchanged, and no credits read back as `[]` |
| Management.TrimOrNull | src/lib/db/operations/magazines/management.ts:34 | `v?.trim() \|\| null`: null iff absent or blank, else the trimmed text |
| Management.NewRowDefaults | src/lib/db/operations/magazines/management.ts:32-42 | a new row has the trimmed, non-empty title and brand, category `official` and status `draft` by default, and view count 0; it has a publish date iff the status is `published`; subtitle and brand URL are null iff blank |
| Management.NewRow | src/lib/db/operations/magazines/management.ts:32-42 | a new row has view count 0, creation and update dates of now, and a publish date iff the status is `published` |
| Management.UpdatedRowKeeps | src/lib/db/operations/magazines/management.ts:79-91 | an update sets the publish date only when publishing and the credits only when some are given; view count and creation date stay; an update with no fields only moves `updatedDate` |
| Management.UpdatedRow | src/lib/db/operations/magazines/management.ts:79-91 | an update keeps the view count and the creation date and moves the update date to now |
| Management.BlocksOf | src/lib/db/operations/magazines/management.ts:93 | the rows of one magazine are exactly the table's rows with that id |
| Management.WithoutMagazine | src/lib/db/operations/magazines/management.ts:93 | deleting a magazine's blocks leaves exactly the rows of other magazines |
| Management.BlocksOfAppend | src/lib/db/operations/magazines/management.ts:93-97 | one magazine's rows of a concatenation are the concatenation of its rows |
| Management.BlocksOfWithout | src/lib/db/operations/magazines/management.ts:93 | after the delete the magazine has no rows and every other magazine keeps its rows |
| Management.BlocksOfRows | src/lib/db/operations/magazines/management.ts:95-97 | inserted rows all belong to the magazine they were inserted for |
| Management.ReplaceBlocks | src/lib/db/operations/magazines/management.ts:93-97 | delete then insert leaves the magazine with exactly the new rows and every other magazine with its old rows |
| Management.InsertKeepsUnique | src/lib/db/operations/magazines/management.ts:47-49 | an insert the unique `(magazine_id, block_order)` index allows keeps the index's pairs unique |
| Management.WithoutKeepsUnique | src/lib/db/operations/magazines/management.ts:93 | deleting rows keeps the pairs unique and leaves none of the magazine |
| Management.Database.constructor | src/lib/db/operations/magazines/management.ts:19-145 | both tables start empty, with both counters at 1 |
| Management.Database.Read | src/lib/db/operations/magazines/management.ts:51-52 | a magazine can be read back iff its id is in the table |
| Management.Database.InsertMagazineBlocks | src/lib/db/operations/magazines/helpers.ts:116-133 | nothing happens for an absent or empty list; otherwise one row per block is appended, or none when the unique index refuses |
| Management.Database.InsertMagazineRow | src/lib/db/operations/magazines/management.ts:32-44 | the insert stores the row under a fresh id, the next one, and leaves the blocks table alone |
| Management.Database.CreateMagazine | src/lib/db/operations/magazines/management.ts:19-68 | a blank title, then a blank brand, is refused before any write; otherwise the new row gets the next id, and the blocks are inserted only when the list is non-empty |
| Management.Database.UpdateMagazine | src/lib/db/operations/magazines/management.ts:74-115 | the row is updated, the magazine's blocks are replaced wholesale and others are untouched; success iff the magazine exists and the insert is allowed |
| Management.Database.DeleteMagazine | src/lib/db/operations/magazines/management.ts:121-145 | the magazine's blocks and row are removed, success iff a row was deleted, and otherwise `Magazine not found` |
| Management.DeleteLeavesNoBlocks | src/lib/db/operations/magazines/management.ts:125 | after a delete the magazine has no blocks left |
| ControlMagazines.Filtered | src/app/api/control/magazines/route.ts:64-70 | the listing keeps exactly the magazines whose status and category match the non-empty filters, and is never longer than the stored list |
| ControlMagazines.SortedListing | src/app/api/control/magazines/route.ts:62-77 | the listing is a permutation of the filtered magazines, holds exactly the matching ones, and runs newest first by `createdDate` (missing dates count as time 0) |
| ControlMagazines.TotalPages | src/app/api/control/magazines/route.ts:91 | for a positive limit `totalPages` is the ceiling of the total over the limit; a `NaN` or zero limit gives no number |
| ControlMagazines.PageIsWindow | src/app/api/control/magazines/route.ts:80-82 | for page and limit of at least 1 the page is the slice `[(page-1)*limit, page*limit)` clipped to the list |
| ControlMagazines.PagesUpToPrefix | src/app/api/control/magazines/route.ts:80-82 | the pages 1 to n laid end to end are the first `n*limit` magazines of the listing |
| ControlMagazines.PagesCoverListing | src/app/api/control/magazines/route.ts:80-91 | the pages 1 to `totalPages` together are the whole listing, in order and without overlap |
| ControlMagazines.PageEmptyBeyondLast | src/app/api/control/magazines/route.ts:80-91 | a page from 1 on holds magazines iff its number is at most `totalPages` |
| ControlMagazines.SortNewestFirst | src/app/api/control/magazines/route.ts:73-77 | sorting the filtered magazines in place gives the newest-first ordering by key, which `SortedListing` shows is a permutation in non-increasing creation time |
| ControlMagazines.Get | src/app/api/control/magazines/route.ts:10-100 | no token answers 401 and an unknown token 403; `count=true` answers the count or the database's error (default "Failed to get count"); otherwise the answer is the requested page of the sorted listing with page, limit (defaults 1 and 20), total, `totalPages` and the caller's role, or the database's error (default "Failed to get magazines") |
| ControlMagazines.Respond | src/app/api/control/magazines/route.ts:253-306 | a created magazine answers 201 with the magazine and the caller's role; a failure answers 400 with the error `createMagazine` gave |
| ControlMagazines.BlockError | src/app/api/control/magazines/route.ts:156-186 | a block draws a complaint iff its type is neither text nor image, its order is not a number, or the content its type needs is blank; the complaint is prefixed with the 1-based block number |
| ControlMagazines.ValidateBlocks | src/app/api/control/magazines/route.ts:156-186 | the loop answers nothing iff every block is acceptable, and otherwise the complaint of the first block that is not |
| ControlMagazines.BlockInputOf | src/app/api/control/magazines/route.ts:225-240 | an accepted block becomes a block input with the same order and kind, carrying only the fields of its kind |
| ControlMagazines.BlockInputsOf | src/app/api/control/magazines/route.ts:225-240 | the request carries one block input per body block, position by position |
| ControlMagazines.PayloadAccepted | src/app/api/control/magazines/route.ts:133-153 | a body that passes the route's checks has a non-blank trimmed title and brand name, so `createMagazine`'s own checks pass; status defaults to published and category to official (with lines 209-222 of the same file) |
| ControlMagazines.BodyError | src/app/api/control/magazines/route.ts:133-153 | the body passes iff title and brand name are present and not blank and the blocks are a non-empty array; a missing title is the first complaint |
| ControlMagazines.CreditsOf | src/app/api/control/magazines/route.ts:220-222 | a credits string is converted to complete entries, an array is passed on as it is, anything else gives no credits |
| ControlMagazines.Payload | src/app/api/control/magazines/route.ts:209-240 | the request sets title, brand name, category, status and credits, and holds one block per body block |
| ControlMagazines.PayloadDefaults | src/app/api/control/magazines/route.ts:212-213 | a body without status or category is stored as published and official |
| ControlMagazines.PayloadTitles | src/app/api/control/magazines/route.ts:210-216 | the trimmed title and brand name of an accepted body are not blank |
| ControlMagazines.TrimIdempotentNonBlank | src/app/api/control/magazines/route.ts:133-143 | trimming a non-blank string leaves a non-blank string |
| ControlMagazines.PayloadBlocks | src/app/api/control/magazines/route.ts:225-240 | the request holds as many blocks as the body, each the conversion of the body block at the same position, and at least one |
| ControlMagazines.PostedCreditsText | src/app/api/control/magazines/route.ts:189-222 | credits sent as text in the one-credit-per-line form are read back as exactly those credits |
| ControlMagazines.Post | src/app/api/control/magazines/route.ts:112-313 | an unknown or missing token answers 401; then a body `request.json()` cannot read lands in the catch and answers 500 `Internal server error`; then the title, brand and blocks checks in that order; then the first failing block's complaint; a body that passes every check is sent to `createMagazine` as exactly the converted body, with the caller's role |
| CardsRoute.CheckOrder | src/app/api/magazines/cards/route.ts:35-73 | a page below 1 is refused first, then a limit outside 1..50, then an unknown category; a request reaches the card query iff none of the three checks fails |
| CardsRoute.CheckCardsQuery | src/app/api/magazines/cards/route.ts:42-83 | a refusal is one of the page, limit and category errors; a request that passes asks for a page of at least 1, a limit between 1 and 50 (unless a number is `NaN`), and a known category or none |
| CardsRoute.DefaultsParse | src/app/api/magazines/cards/route.ts:35-36 | the default strings "1" and "9" parse to 1 and 9 |
| CardsRoute.CardsDefaults | src/app/api/magazines/cards/route.ts:35-83 | without parameters the query asks for page 1 of nine cards of every category |
| CardsRoute.NonNumericPagePasses | src/app/api/magazines/cards/route.ts:35-42 | a non-numeric page parses to `NaN`, which the `page < 1` test lets through, so the query goes out with a `NaN` page |
| MagazineList.Pair | src/app/magazine/MagazineListContent.tsx:168 | a part without `=` is a key with an empty value; otherwise the key is what precedes the first `=` and the value the rest, so key, `=` and value rebuild the part |
| MagazineList.SearchOf | src/app/magazine/MagazineListContent.tsx:197 | a path without `?` has an empty query string |
| MagazineList.ParsePage | src/app/magazine/MagazineListContent.tsx:167-171 | the page is always at least 1: an absent or empty parameter is page 1, a positive decimal is that number, and anything else falls back to 1 |
| MagazineList.ParseCategory | src/app/magazine/MagazineListContent.tsx:173-176 | the filter is the one whose name the `category` parameter holds, and `all` when it names none |
| MagazineList.UrlParts | src/app/magazine/MagazineListContent.tsx:186-196 | `updateURL` sets at most two parameters |
| MagazineList.UpdateURLBare | src/app/magazine/MagazineListContent.tsx:196-197 | the pushed path is exactly `/magazine` iff the page is at most 1 and the filter is `all` |
| MagazineList.UpdateURL | src/app/magazine/MagazineListContent.tsx:186-197 | the pushed path always starts with `/magazine` |
| MagazineList.ParamReadsBack | src/app/magazine/MagazineListContent.tsx:189-193 | a `key=value` part reads back as that key and value when the key holds no `=` |
| MagazineList.ParamHasNoAmpersand | src/app/magazine/MagazineListContent.tsx:189-193 | a part built from a key and value without `&` holds no `&` |
| MagazineList.DigitsHaveNoSeparator | src/app/magazine/MagazineListContent.tsx:189 | a page number written in digits holds no `&` |
| MagazineList.CategoryNameHasNoSeparator | src/app/magazine/MagazineListContent.tsx:193 | a filter name is non-empty and holds no `&` |
| MagazineList.SearchOfQuery | src/app/magazine/MagazineListContent.tsx:197 | the query string of `prefix?qs`, with no `?` in the prefix, is `qs` |
| MagazineList.UrlPartsSeparated | src/app/magazine/MagazineListContent.tsx:186-196 | no part `updateURL` sets holds the `&` separator |
| MagazineList.SplitUpdateURL | src/app/magazine/MagazineListContent.tsx:186-197 | the pushed URL's query string split at `&` gives back the parts `updateURL` set, or one empty part when it set none |
| MagazineList.LookupUrlPage | src/app/magazine/MagazineListContent.tsx:188-190 | the page parameter is present in the pushed URL iff the page is past the first, and then holds its decimal digits |
| MagazineList.LookupUrlCategory | src/app/magazine/MagazineListContent.tsx:192-194 | the category parameter is present in the pushed URL iff the filter is not `all`, and then holds its name |
| MagazineList.SearchOfUpdateURL | src/app/magazine/MagazineListContent.tsx:186-197 | what `searchParams.get` finds for page and category in the URL `updateURL` pushes |
| MagazineList.URLRoundTrip | src/app/magazine/MagazineListContent.tsx:167-200 | reading back the URL that `updateURL(p, c)` pushes gives `(p, c)` for every page from 1 on |
| MagazineList.PageReadsBack | src/app/magazine/MagazineListContent.tsx:167-171 | a query whose page parameter is the page's digits, or absent for page 1, reads back as that page |
| MagazineList.CategoryReadsBack | src/app/magazine/MagazineListContent.tsx:173-176 | a query whose category parameter names the filter, or is absent for `all`, reads back as that filter |
| MagazineList.CardsRequest | src/app/magazine/MagazineListContent.tsx:228-232 | the list asks for nine cards of the current page, with no category for `all` and the filter's name otherwise |
| MagazineList.ShowPagination | src/app/magazine/MagazineListContent.tsx:279-298 | the pagination is shown iff the response reports more than one page |
| MagazineList.ListPage.constructor | src/app/magazine/MagazineListContent.tsx:212-216 | the initial page and filter are those parsed from the URL the page was opened at |
| MagazineList.ListPage.Sync | src/app/magazine/MagazineListContent.tsx:218-225 | when the URL changes, page and filter are re-read from it |
| MagazineList.ListPage.HandlePageChange | src/app/magazine/MagazineListContent.tsx:237-240 | the page is set, the filter kept, and the pushed URL reads back as the new state for any page from 1 on |
| MagazineList.ListPage.HandleCategoryChange | src/app/magazine/MagazineListContent.tsx:245-249 | the filter is set, the page goes back to 1, and the pushed URL reads back as the new state |
| Carousel3D.NormalizedIndex | src/components/home/MagazineCarousel3D.tsx:85 | the centre cell is the index's residue mod 16, always a cell of the ring, negative indices included |
| Carousel3D.ShortestPathAsWritten | src/components/home/MagazineCarousel3D.tsx:58-75 | whatever the arguments, the returned index lands on the target cell |
| Carousel3D.ShortestPathOnRing | src/components/home/MagazineCarousel3D.tsx:58-75 | for a current index inside 0..15 the written rule turns by the shorter of the two distances, at most 8 cells, and straight to the target on a tie |
| Carousel3D.ShortestPathLongWay | src/components/home/MagazineCarousel3D.tsx:58-105 | after one full turn (index 25, centre 9) a click on cell 0 turns 9 cells back to 16 although 32 is 7 cells ahead; from 32 a click on cell 1 turns 15 cells |
| Carousel3D.ShortestPath | src/components/home/MagazineCarousel3D.tsx:58-105 | the corrected rule measures from the centre cell: it lands on the target, turns at most 8 cells, and agrees with the written rule whenever the index is inside 0..15 |
| Carousel3D.ShortestPathIsShortest | src/components/home/MagazineCarousel3D.tsx:58-75 | no index landing on the target cell is closer to the current index than the corrected rule's |
| Carousel3D.CellMagazine | src/components/home/MagazineCarousel3D.tsx:223-252 | a cell shows nothing iff there are no magazines, and otherwise the magazine at the cell's index modulo their number |
| Carousel3D.EveryMagazineShown | src/components/home/MagazineCarousel3D.tsx:223-252 | with at most 16 magazines the i-th cell shows the i-th magazine, so every magazine gets a cell |
| Carousel3D.SwipeDirection | src/components/home/MagazineCarousel3D.tsx:185 | a drag towards the left turns to the next cell, any other swipe to the previous one |
| Carousel3D.Carousel.constructor | src/components/home/MagazineCarousel3D.tsx:19-53 | the ring starts at index 0, not yet measured, with no drag under way |
| Carousel3D.Carousel.Measure | src/components/home/MagazineCarousel3D.tsx:21-24 | the viewport measurement sets `isMobile` to whether the width is below 768 pixels and changes nothing else |
| Carousel3D.Carousel.CenterIndex | src/components/home/MagazineCarousel3D.tsx:85-86 | the centre cell is the index modulo 16 |
| Carousel3D.Carousel.Rotate | src/components/home/MagazineCarousel3D.tsx:144-148 | on mobile nothing turns; otherwise the index moves by one, down for prev and up for next |
| Carousel3D.Carousel.NavButtonClick | src/components/home/MagazineCarousel3D.tsx:205-217 | a button with a direction turns the ring one step except on mobile; a button without one does nothing |
| Carousel3D.Carousel.MouseDown | src/components/home/MagazineCarousel3D.tsx:157-164 | the press handler is attached only once the ring is measured as not mobile, and then records the press position and time and clears the drag flag; otherwise nothing changes (with lines 269-282 of the same file) |
| Carousel3D.Carousel.MouseUp | src/components/home/MagazineCarousel3D.tsx:172-197 | (attached only when measured as not mobile) a release that moved at least 30 pixels after more than 200 ms turns one step in the swipe's direction and marks a drag; any other release leaves the index and clears the flag (with lines 269-282 of the same file) |
| Carousel3D.Carousel.DragTimeout | src/components/home/MagazineCarousel3D.tsx:191-193 | the timer after a swipe clears the drag flag and nothing else |
| Carousel3D.Carousel.CellClick | src/components/home/MagazineCarousel3D.tsx:94-114 | during a drag a click is ignored; on the centre cell it opens the magazine; on another cell it turns the ring with `getShortestPath` on the raw index, so that the clicked cell becomes the centre; while the index is still on its first lap (0 to 15) that is the shortest path, at most 8 cells away |
| SlideTimer.SlideTimer.RemainingTime | src/hooks/useSlideTimer.ts:49 | the remaining time is never negative, is zero exactly when the elapsed time has reached the interval, and is the interval minus the elapsed time before that |
| SlideTimer.SlideTimer.constructor | src/hooks/useSlideTimer.ts:33-46 | a new timer runs iff it is started automatically and enabled, is not paused, has no interval installed, and has all its times at zero |
| SlideTimer.SlideTimer.Start | src/hooks/useSlideTimer.ts:58-83 | a disabled timer ignores `start`; otherwise it runs unpaused with an interval installed and its start and last-update times set to now, elapsed and paused times kept |
| SlideTimer.SlideTimer.Tick | src/hooks/useSlideTimer.ts:68-117 | each tick sets the elapsed time to now minus the start and the paused time; once that reaches the interval the timer stops, shows exactly the interval and calls `onComplete` once; a tick with no interval installed does nothing |
| SlideTimer.SlideTimer.Pause | src/hooks/useSlideTimer.ts:85-94 | only a running, unpaused timer pauses: its interval is removed and the pause moment recorded; it stays running |
| SlideTimer.SlideTimer.Resume | src/hooks/useSlideTimer.ts:96-118 | only a paused, enabled timer resumes: the time since the pause is added to the paused time and an interval is installed again |
| SlideTimer.SlideTimer.Reset | src/hooks/useSlideTimer.ts:120-138 | `reset` and `resetImmediate` remove the interval, stop and unpause the timer and zero every time, keeping the completion count |
| SlideTimer.SlideTimer.Stop | src/hooks/useSlideTimer.ts:140-144 | `stop` removes the interval and leaves the timer neither running nor paused, all times kept |
| SlideTimer.SlideTimer.SetEnabled | src/hooks/useSlideTimer.ts:146-150 | disabling a running timer stops it; otherwise its running state is unchanged |
| SlideTimer.AutoStartEffect | src/hooks/useSlideTimer.ts:158-162 | an automatically started, enabled timer that is neither running nor paused is started at once; otherwise nothing changes |
| SlideTimer.RunToCompletion | src/hooks/useSlideTimer.ts:58-82 | a timer started and ticked once at least one interval later completes exactly once, stops, and shows the full interval with nothing remaining |
| SlideTimer.NextIndex | src/hooks/useSlideTimer.ts:214 | the next slide is the following one, wrapping from the last to the first |
| SlideTimer.PrevIndex | src/hooks/useSlideTimer.ts:222 | the previous slide of a slide in range is in range |
| SlideTimer.NextPrevInverse | src/hooks/useSlideTimer.ts:214-222 | going next then back, or back then next, returns to the same slide |
| SlideTimer.CarouselTimerFlags | src/hooks/useSlideTimer.ts:238-243 | the carousel's timer starts on its own, and is enabled, only when there is more than one slide |
| SlideTimer.SlideChangeEffect | src/hooks/useSlideTimer.ts:245-258 | a change of slide index resets the timer to zero (elapsed and paused time cleared); while enabled with more than one slide the timer is then running, unpaused and started now; disabled after a change it is stopped; with the same index and disabled the timer keeps its running state, elapsed and paused time; completions are kept |
| SlideTimer.SlideCarousel.constructor | src/hooks/useSlideTimer.ts:200-209 | the carousel starts on slide 0 with no slide change reported |
| SlideTimer.SlideCarousel.GoToNext | src/hooks/useSlideTimer.ts:213-219 | `onSlideChange` hears the next slide with direction next; the hook's own index follows unless the caller controls the index |
| SlideTimer.SlideCarousel.GoToPrev | src/hooks/useSlideTimer.ts:221-227 | `onSlideChange` hears the previous slide with direction prev; the hook's own index follows unless the caller controls the index |
| SlideTimer.SlideCarousel.GoToSlide | src/hooks/useSlideTimer.ts:229-236 | an index outside the slides is ignored; otherwise `onSlideChange` hears it with direction next iff it lies ahead of the current slide, and the hook's own index follows unless the caller controls it |
| HeroSlide.SwipeOf | src/components/home/HeroSlide.tsx:104-112 | a touch that ends more than 50 pixels left of where it began is a swipe to the next slide, more than 50 pixels right one to the previous, and anything in between is no swipe |
| HeroSlide.AutoAdvance | src/components/home/HeroSlide.tsx:35-41 | the slides advance on their own iff nothing is loading and there is more than one magazine |
| HeroSlide.MarkLoaded | src/components/home/HeroSlide.tsx:51-57 | marking image i as loaded sets flag i, keeps every other flag, and pads the flags with false when i lies past their end |
| HeroSlide.HeroSlide.constructor | src/components/home/HeroSlide.tsx:25-43 | the slider starts on slide 0 with no image flags and no touch under way |
| HeroSlide.HeroSlide.CurrentMagazine | src/components/home/HeroSlide.tsx:43 | the magazine shown is the one at the carousel's index, or the first when the index is out of range; there is none only without magazines |
| HeroSlide.HeroSlide.ResetImages | src/components/home/HeroSlide.tsx:45-49 | a new list of magazines resets every image flag to false, one per magazine; an empty list leaves the flags alone |
| HeroSlide.HeroSlide.ImageLoad | src/components/home/HeroSlide.tsx:51-57 | loading an image marks its flag as above and leaves the touch state alone |
| HeroSlide.HeroSlide.TouchStart | src/components/home/HeroSlide.tsx:92-95 | a touch records its start and forgets any earlier end |
| HeroSlide.HeroSlide.TouchMove | src/components/home/HeroSlide.tsx:97-99 | a move records the latest position as the end |
| HeroSlide.HeroSlide.TouchEnd | src/components/home/HeroSlide.tsx:101-117 | without a truthy start and end nothing happens; otherwise a left swipe goes to the next slide, a right swipe to the previous, anything else stays, and both positions are cleared |
| HeroSlide.HeroSlide.RightClick | src/components/home/HeroSlide.tsx:64-67 | the right arrow goes to the next slide, wrapping after the last |
| HeroSlide.HeroSlide.LeftClick | src/components/home/HeroSlide.tsx:59-62 | the left arrow goes to the previous slide, wrapping before the first |
| HeroSlide.SwipeLeftFrom | src/components/home/HeroSlide.tsx:92-117 | on a fresh slider with at least two magazines, a left swipe of more than 50 pixels shows the second magazine |
| RateLimiter.RetryAfter | src/middleware.ts:35-41 | the retry delay is the one-minute window rounded up to whole seconds: 60 |
| RateLimiter.IsApiPath | src/middleware.ts:19 | a path is limited iff its first four characters are `/api` |
| RateLimiter.ClientKey | src/middleware.ts:20-22 | a client is keyed by `x-forwarded-for` when non-empty, else by `x-real-ip` when non-empty, else as "anonymous" |
| RateLimiter.Younger | src/middleware.ts:26-28 | the recent requests are exactly the stored ones less than the age old, none added |
| RateLimiter.YoungerIdempotent | src/middleware.ts:26-28 | filtering the recent requests again with the same clock keeps them all |
| RateLimiter.YoungerNarrower | src/middleware.ts:26-28 | a shorter age never keeps more requests |
| RateLimiter.YoungerKeepsAll | src/middleware.ts:26-28 | a history lying wholly inside the window passes the filter whole |
| RateLimiter.After | src/middleware.ts:52-54 | the pruned list holds exactly the timestamps after the cutoff |
| RateLimiter.Pruned | src/middleware.ts:51-60 | after pruning a client remains iff it has a request in the last five minutes, and then keeps exactly those |
| RateLimiter.Limiter.constructor | src/middleware.ts:7 | the request log starts empty |
| RateLimiter.Limiter.Recent | src/middleware.ts:25-28 | a client with nothing stored has no recent requests |
| RateLimiter.Limiter.Prune | src/middleware.ts:51-60 | the prune pass replaces the log by its pruned form, and no client ever holds more than 100 timestamps |
| RateLimiter.Limiter.Handle | src/middleware.ts:15-65 | a non-API path passes untouched; an API request is refused with 429, the message and a 60-second retry, iff the client already made 100 requests in the last minute, and the log is then unchanged; otherwise the client's log becomes its recent requests plus this one, other clients keep theirs, and the prune pass runs when the 1% roll succeeds |
| RateLimiter.HundredAndFirst | src/middleware.ts:24-45 | a client's 101st request within one minute is refused |
| Stats.MonthKey | src/app/api/control/stats/route.ts:47 | the month key is the first seven characters of the date (`YYYY-MM`), or the whole date when it is shorter |
| Stats.SumForAbsent | src/app/api/control/stats/route.ts:29-49 | a key that no day falls under sums to 0 |
| Stats.BeforeIrreflexive | src/app/api/control/stats/route.ts:59-60 | the key order never puts a key before itself |
| Stats.BeforeTransitive | src/app/api/control/stats/route.ts:59-60 | the key order is transitive |
| Stats.BeforeTotal | src/app/api/control/stats/route.ts:59-60 | any two different keys are ordered one way or the other |
| Stats.Accumulate | src/app/api/control/stats/route.ts:29-49 | the map holds exactly the keys of the days, each with the sum of its days' counts, and the insertion order lists each of those keys once |
| Stats.Entries | src/app/api/control/stats/route.ts:38-53 | the map is turned into one `{key, count}` entry per key, in the map's insertion order |
| Stats.Insert | src/app/api/control/stats/route.ts:59-60 | inserting an entry adds exactly that entry |
| Stats.InsertSorted | src/app/api/control/stats/route.ts:59-60 | inserting an entry with a new key into a sorted list keeps it sorted |
| Stats.SortEntries | src/app/api/control/stats/route.ts:59-60 | sorting entries with distinct keys gives a permutation of them in strictly increasing key order |
| Stats.Summary | src/app/api/control/stats/route.ts:26-60 | a summary is sorted by key, holds one entry per key of the days and no other, and each entry holds the sum of its days |
| Stats.SumKeysNoDays | src/app/api/control/stats/route.ts:29-36 | with no days every key sums to 0 |
| Stats.SumKeysSnoc | src/app/api/control/stats/route.ts:29-36 | one more day adds its count to the sum over distinct keys iff its key is among them |
| Stats.SumKeysTotal | src/app/api/control/stats/route.ts:29-36 | summed over distinct keys that cover every day, the per-key sums give the total of all days |
| Stats.KeysOf | src/app/api/control/stats/route.ts:38-40 | the keys of a list of entries, in order |
| Stats.CountSumIsSumKeys | src/app/api/control/stats/route.ts:38-40 | the counts of entries that each hold their key's sum add up to the sum over their keys |
| Stats.SummaryKeepsTotal | src/app/api/control/stats/route.ts:26-60 | a summary loses no view: its counts add up to the total of the daily views |
| Stats.Summaries | src/app/api/control/stats/route.ts:23-60 | the weekly and monthly lists summarise `dailyViews \|\| []`, by week key and by month key |
| Stats.GetAsWritten | src/app/api/control/stats/route.ts:9-17 | as written the role is not awaited, so no token is ever answered 401: a failed read answers 500 with its error, and otherwise the summaries are returned; the role comes out as `None`, standing for the pending Promise that `JSON.stringify` writes as `{}` |
| Stats.Get | src/app/api/control/stats/route.ts:6-70 | with the role awaited, a token without a role answers 401; otherwise a failed read answers 500 with its error (default "Failed to get statistics"), and a successful one the two summaries and the caller's role |
| QueryClient.Pow2 | src/lib/queryClient.ts:21 | `2 ** n` is at least 1 |
| QueryClient.RetryDelay | src/lib/queryClient.ts:21 | a query's retry delay is `1000 * 2^attempt` or the 30-second cap, never more than the cap |
| QueryClient.RetryDelayDoubles | src/lib/queryClient.ts:21 | the first retry waits one second and each later one twice the previous, up to the cap |
| QueryClient.RetryDelayMonotone | src/lib/queryClient.ts:21 | a later attempt never waits less, and every attempt waits at least one second |
| QueryClient.RetryDelayCapped | src/lib/queryClient.ts:21 | from the sixth attempt on (index 5) every retry waits exactly 30 seconds |
| QueryClient.KeyHierarchy | src/lib/queryClient.ts:46-100 | every list, detail, count, by-brand, admin, published, stats and views key extends the `all` key of its scope, and each `list`/`detail` key extends its `lists`/`details` key, so invalidating a prefix reaches them |
| QueryClient.KeysSeparate | src/lib/queryClient.ts:46-100 | list keys and detail keys never extend one another, keys of different scopes never do, and a published card key extends neither the detail keys nor the published cards list |
| QueryClient.DetailKeysDistinct | src/lib/queryClient.ts:56-89 | the detail and published card keys of different ids never extend one another |
| QueryClient.ErrorMessage | src/lib/queryClient.ts:110-135 | the message is one of the six fixed texts, and anything that is not an `Error` gets the unknown-error text |
| QueryClient.ErrorMessageClassifies | src/lib/queryClient.ts:110-135 | each text is given exactly when its marker is in the error message and no earlier marker is: "Failed to fetch", then 404, 401, 403 and 500, else the unknown-error text |
| QueryClient.StatusInMessage | src/lib/queryClient.ts:113-120 | "Failed to fetch" anywhere in a message means a network error, and 404 anywhere without it means not found |
| QueryClient.BumpViewCount | src/lib/queryClient.ts:174-183 | cached data has its magazine's view count raised by the increment from `viewCount \|\| 0`, every other field kept; absent data stays absent |
| QueryClient.SetWith | src/lib/queryClient.ts:172-184 | `setQueryData` changes only the given key, and only when it is cached |
| QueryClient.UpdateViewCountEffect | src/lib/queryClient.ts:170-200 | the optimistic update raises by the increment the view count of the magazine's card and detail entries that are cached, and changes no other entry and no key |
| QueryClient.UpdateViewCount | src/lib/queryClient.ts:170-200 | the optimistic update adds and removes no cache entry |
| QueryClient.BumpViewCountAdds | src/lib/queryClient.ts:174-183 | two optimistic updates in a row add up to one update by their sum |
| QueryClient.MagazineCardOptions | src/lib/queryClient.ts:223-249 | the card query keeps data fresh for 10 minutes and cached for 30, and runs only for a positive id |
| QueryClient.MagazineDetailOptions | src/lib/queryClient.ts:229-256 | the detail query keeps data fresh for 2 minutes and cached for 10, and runs only for a positive id |
| QueryClient.AdminListOptions | src/lib/queryClient.ts:235-263 | the admin list keeps data fresh for 30 seconds and cached for 5 minutes, and runs only with a non-empty token |
| AdminQueries.AdminKeyHierarchy | src/lib/queries/admin.ts:19-37 | each admin list and detail key extends its `lists`/`details` key and the scope's `all` key, and the count key extends the stats key (with line 166 of the same file) |
| AdminQueries.AdminKeysSeparate | src/lib/queries/admin.ts:19-28 | the admin magazine lists never reach a detail or count key, and neither the stats nor the details prefix reaches a list key (with line 166 of the same file) |
| AdminQueries.AdminKeysApart | src/lib/queries/admin.ts:19-37 | the admin keys and the public keys never extend one another |
| AdminQueries.AdminToken | src/lib/queries/admin.ts:11-16 | the token is the stored one in a browser when it is non-empty, and the empty string otherwise |
| AdminQueries.Param | src/lib/queries/admin.ts:50-55 | a lookup finds a value only under its own name, and finds none only when no parameter has that name |
| AdminQueries.ListSearch | src/lib/queries/admin.ts:49-55 | the list request always starts with the token |
| AdminQueries.CountSearch | src/lib/queries/admin.ts:69-73 | the count request always starts with the token and `count=true` |
| AdminQueries.ParamBlock | src/lib/queries/admin.ts:50-55 | a block of at most one parameter in front of the rest decides a lookup of its name and leaves other names to the rest |
| AdminQueries.ListSearchToken | src/lib/queries/admin.ts:50 | the list request carries the token and no count flag |
| AdminQueries.ListSearchPage | src/lib/queries/admin.ts:52 | the list request carries the page iff it is a non-zero number |
| AdminQueries.ListSearchLimit | src/lib/queries/admin.ts:53 | the list request carries the limit iff it is a non-zero number |
| AdminQueries.ListSearchStatus | src/lib/queries/admin.ts:54 | the list request carries the status iff it is non-empty |
| AdminQueries.ListSearchCategory | src/lib/queries/admin.ts:55 | the list request carries the category iff it is non-empty |
| AdminQueries.CountSearchParams | src/lib/queries/admin.ts:70 | the count request carries `count=true` and the token |
| AdminQueries.AdminMagazineEnabled | src/lib/queries/admin.ts:182 | the detail query runs iff the id is positive |
| AdminQueries.Without | src/lib/queries/admin.ts:254 | the filtered page holds exactly the magazines with another id |
| AdminQueries.WithoutKeepsOrder | src/lib/queries/admin.ts:254 | filtering keeps the other magazines in their order and drops exactly the occurrences of the id |
| AdminQueries.WithoutIdempotent | src/lib/queries/admin.ts:254 | filtering the same id twice is filtering it once |
| AdminQueries.DeleteUpdater | src/lib/queries/admin.ts:248-256 | a cached page with data loses the deleted magazine and keeps every other field; anything else is returned as it was |
| AdminQueries.Snapshot | src/lib/queries/admin.ts:241-243 | the snapshot holds exactly the cached entries under the lists prefix, unchanged |
| AdminQueries.RemoveEverywhere | src/lib/queries/admin.ts:246-257 | the optimistic update applies the updater to every entry under the prefix and leaves every other entry and the set of keys alone |
| AdminQueries.Restore | src/lib/queries/admin.ts:263-267 | the rollback writes every snapshot entry back and leaves the entries outside the snapshot alone |
| AdminQueries.RollbackRestores | src/lib/queries/admin.ts:241-267 | restoring the snapshot after the optimistic removal gives back exactly the cache as it was |
| AdminQueries.RemovedEverywhere | src/lib/queries/admin.ts:246-257 | after the optimistic removal no cached list page holds the deleted magazine |
| AdminQueries.RemoveUnder | src/lib/queries/admin.ts:276-315 | `removeQueries` drops exactly the entries under the prefix and keeps the rest unchanged |
| AdminQueries.KeysUnder | src/lib/queries/admin.ts:198-205 | `invalidateQueries` marks exactly the cached keys under the prefix (with lines 271-283 of the same file) |
| AdminQueries.AdminCache.constructor | src/lib/queries/admin.ts:189-190 | the cache starts with the given entries and nothing stale |
| AdminQueries.AdminCache.Invalidate | src/lib/queries/admin.ts:198-205 | invalidation marks the entries under the prefix stale and changes no entry (with lines 297-301 of the same file) |
| AdminQueries.AdminCache.Remove | src/lib/queries/admin.ts:304-315 | removal drops the entries under the prefix and marks nothing |
| AdminQueries.AdminCache.CreateSucceeded | src/lib/queries/admin.ts:195-207 | a successful create with data marks the lists and the statistics stale; otherwise nothing changes |
| AdminQueries.AdminCache.UpdateSucceeded | src/lib/queries/admin.ts:213-228 | a successful update with data stores the response as the magazine's detail entry and marks the lists stale; otherwise nothing changes |
| AdminQueries.AdminCache.DeleteStarted | src/lib/queries/admin.ts:234-260 | the delete snapshots the cached lists and then removes the magazine from every cached list page |
| AdminQueries.AdminCache.DeleteFailed | src/lib/queries/admin.ts:261-268 | a failed delete writes the snapshot back when there is one |
| AdminQueries.AdminCache.DeleteSettled | src/lib/queries/admin.ts:269-284 | when the delete settles, the lists are marked stale, the magazine's detail entry is removed and the statistics are marked stale |
| AdminQueries.AdminCache.ClearMagazines | src/lib/queries/admin.ts:311-315 | clearing drops every admin magazine entry |
| AdminQueries.FailedDelete | src/lib/queries/admin.ts:234-268 | a delete that fails leaves the cache entries exactly as they were before it started |
| AdminLayout.FailureMessage | src/components/admin/AdminLayout.tsx:89-97 | a rejected token leaves the invalid-token message, a thrown `Error` its own message, and any other thrown value the generic check-failed message |
| AdminLayout.ScreenOf | src/components/admin/AdminLayout.tsx:227-247 | the admin page shows iff sign-in is not required or a token is held and the form is hidden; the form shows iff sign-in is required and the form is on; the navigation shows iff it is enabled and a token is held, with the dashboard link iff the role is developer or pm (with lines 127-129, 143 and 174-175 of the same file) |
| AdminLayout.Layout.constructor | src/components/admin/AdminLayout.tsx:35-54 | on mount a stored token is checked at once with the form hidden; without one the form is shown iff sign-in is required; nothing is signed in yet |
| AdminLayout.Layout.BeginCheck | src/components/admin/AdminLayout.tsx:57-58 | a check marks the page as validating with the token under way and clears the error, changing nothing else |
| AdminLayout.Layout.FinishCheck | src/components/admin/AdminLayout.tsx:64-103 | an accepted token with an allowed role is signed in, stored, and hides and clears the form; an accepted token with another role leaves the role message and (corrected) brings the form back when sign-in is required; a rejection or a thrown value leaves its message, removes the stored token and shows the form when sign-in is required |
| AdminLayout.Layout.FinishCheckAsWritten | src/components/admin/AdminLayout.tsx:64-103 | as written, a role outside the list only sets the message: the form's visibility, its input and the stored token are left as they were; an accepted allowed token is stored, the input is cleared and the form hidden; a failure keeps role and input and removes the stored token |
| AdminLayout.Layout.Type | src/components/admin/AdminLayout.tsx:191 | typing changes the input and nothing else |
| AdminLayout.Layout.Submit | src/components/admin/AdminLayout.tsx:107-112 | submitting a non-blank input starts a check of the trimmed text; a blank one does nothing |
| AdminLayout.Layout.Logout | src/components/admin/AdminLayout.tsx:115-124 | logging out forgets the token and the role, removes the stored token and shows the form |
| AdminLayout.DisallowedStoredTokenAsWritten | src/components/admin/AdminLayout.tsx:69-76 | as written, a stored token whose role is outside the list leaves a page that requires sign-in empty: neither the form nor its message is shown (with lines 47-50, 174-175 and 227-229 of the same file) |
| AdminLayout.DisallowedStoredToken | src/components/admin/AdminLayout.tsx:69-76 | with the corrected check the same start shows the form, empty, with the role message (with lines 227-229 of the same file) |
| AdminLayout.SignIn | src/components/admin/AdminLayout.tsx:127-153 | signing in from the form with an allowed role leads to the admin page with the navigation, and the dashboard link for developers and project managers only (with lines 64-88 and 107-112 of the same file) |
| AdminLayout.BlankSubmit | src/components/admin/AdminLayout.tsx:107-112 | a blank input never starts a check: the form stays as it was, with no error and not validating |
| Recommendations.RequestFor | src/components/features/magazine-detail/MagazineRecommendations.tsx:39-56 | the block asks for page 1 of `maxItems + 3` cards (`maxItems` defaulting to 3) in the given category |
| Recommendations.Exclude | src/components/features/magazine-detail/MagazineRecommendations.tsx:66-68 | dropping the current magazine keeps exactly the cards with another id |
| Recommendations.ShownIsPrefix | src/components/features/magazine-detail/MagazineRecommendations.tsx:59-75 | without data nothing is shown; otherwise the block is a prefix of the remaining cards, `maxItems` of them or all when fewer remain (a negative `maxItems` counting from the end as `slice` does), and never the magazine being read |
| Recommendations.Shown | src/components/features/magazine-detail/MagazineRecommendations.tsx:59-75 | without data nothing is shown; with data the block is a prefix of the cards left once the current magazine is dropped |
| Recommendations.FalsyIdExcludesNothing | src/components/features/magazine-detail/MagazineRecommendations.tsx:66 | a current id of 0 or none drops nothing: the first three cards are shown as they came |
| Recommendations.ExtraCardsSuffice | src/components/features/magazine-detail/MagazineRecommendations.tsx:54-71 | after dropping one id from a full page of `maxItems + 3` distinct cards, more than `maxItems` remain, so the block is always full |
| Recommendations.ExcludeDropsAtMostOne | src/components/features/magazine-detail/MagazineRecommendations.tsx:66-68 | with distinct ids, dropping one id removes at most one card, and none when no card has it |
| Recommendations.ExcludeKeepsAll | src/components/features/magazine-detail/MagazineRecommendations.tsx:66-68 | a list without the id passes the filter whole |
| MobileCard.AgeOf | src/components/home/MagazineCarouselMobileCard.tsx:24-28 | day 0 reads today, day 1 yesterday, other counts below 7 as days, 7 to 29 as 1 to 4 weeks, and from 30 on as whole months, each number the floor of its unit |
| MobileCard.DiffDays | src/components/home/MagazineCarouselMobileCard.tsx:19-22 | the day count is the floor of the time since the publication date, or the creation date when there is none, in whole days |
| MobileCard.AgeMonotone | src/components/home/MagazineCarouselMobileCard.tsx:24-28 | more days never give a newer bucket, nor a smaller number of weeks or months |
| MobileCard.FutureDateReadsNegative | src/components/home/MagazineCarouselMobileCard.tsx:19-26 | a publication date in the future gives a negative day count, which the days bucket shows as "-N일 전" |
| MobileCard.Truncate | src/components/home/MagazineCarouselMobileCard.tsx:35 | a text over 100 characters becomes its first 97 characters and "...", exactly 100; a shorter one is kept |
| MobileCard.TruncateIdempotent | src/components/home/MagazineCarouselMobileCard.tsx:35 | cutting a preview twice changes nothing the second time |
| MobileCard.ContentPreview | src/components/home/MagazineCarouselMobileCard.tsx:34-35 | the preview is never longer than 100 characters |
| MobileCard.PreviewCutIff | src/components/home/MagazineCarouselMobileCard.tsx:34-35 | the fixed words take 53 characters, so the preview is cut exactly when brand name and title together exceed 47 |
| MobileCard.HasValidImage | src/components/home/MagazineCarouselMobileCard.tsx:58-59 | the thumbnail is usable iff there is an image URL with a character that is not whitespace |
| MobileCard.FormattedDate | src/components/home/MagazineCarouselMobileCard.tsx:18-29 | the card reads "오늘" iff the publish date (or else the creation date) lies less than a day back, and "어제" iff one to two days back |
| MobileCard.Render | src/components/home/MagazineCarouselMobileCard.tsx:24-28 | the labels "오늘" and "어제" are given to the same-day and previous-day buckets and to no other bucket |
| RelativeTime.AsUtc | src/utils/formatRelativeTime.ts:10 | the string read holds a `Z`: the date itself when it had one, else the date with `Z` appended |
| RelativeTime.AsUtcIdempotent | src/utils/formatRelativeTime.ts:10 | marking a string as UTC twice is marking it once |
| RelativeTime.AgoOf | src/utils/formatRelativeTime.ts:18-21 | under a minute is "just now"; then whole minutes (1-59), hours (1-23) and days (1-6), each the floor of its unit; from a week on the date itself |
| RelativeTime.AgoMonotone | src/utils/formatRelativeTime.ts:18-21 | more elapsed time never gives a newer bucket, nor a smaller number within the same one |
| RelativeTime.ElapsedSeconds | src/utils/formatRelativeTime.ts:16 | the elapsed seconds are the floor of the millisecond difference over 1000 |
| RelativeTime.FormatRelativeTimeCases | src/utils/formatRelativeTime.ts:3-23 | no date or an empty string gives the empty string; a `Date` a week or more back is handed to `formatDate`; one less than a minute back reads "just now" |
| RelativeTime.FormatRelativeTime | src/utils/formatRelativeTime.ts:3-23 | no date or an empty string gives the empty string; a time less than a minute back reads "방금 전" |
| RelativeTime.UtcSuffixIrrelevant | src/utils/formatRelativeTime.ts:8-11 | a date string without `Z` reads the same as the string with `Z` appended |
| AdminDashboard.FilteredLogs | src/components/admin/AdminDashboard.tsx:57-61 | without statistics the list is empty; otherwise it holds exactly the recent logs whose action and status match the selectors, "ALL" matching anything |
| AdminDashboard.Filter | src/components/admin/AdminDashboard.tsx:57-60 | the filter keeps exactly the logs both selectors match |
| AdminDashboard.FilterKeepsOrder | src/components/admin/AdminDashboard.tsx:57-60 | filtering keeps the logs in the order they came |
| AdminDashboard.FilterAllKeepsEverything | src/components/admin/AdminDashboard.tsx:57-60 | with both selectors on "ALL" every log is shown |
| AdminDashboard.FilterComposes | src/components/admin/AdminDashboard.tsx:57-60 | narrowing by action and then by status gives the same list as both at once |
| AdminDashboard.ActionDisplayOf | src/components/admin/AdminDashboard.tsx:69-92 | CREATE, UPDATE and DELETE get their Korean labels and style classes; any other action keeps its own text with the unknown class |
| AdminDashboard.ActionDisplayDistinct | src/components/admin/AdminDashboard.tsx:69-92 | two different actions share a label iff one is `CREATE`, `UPDATE` or `DELETE` and the other is an unknown action spelled as that action's Korean label |

## Left out

- SHA-256 is not computed. The hash is a parameter that yields 64 lower-case hex digits, or fails as a runtime without a crypto backend does. The runtime-detection branches of `createSHA256Hash` (src/lib/auth/token-generator.ts:3-28) are platform plumbing.
- The clock is a parameter. `new Date()`, `toISOString`, `Date.now` and `toLocaleString` become the `now`, `isoNow` and date arguments.
- Reading date strings is a parameter (`parse`). So is `formatDate`.
- The start of a week in the statistics route is a parameter (`weekOf`), because it comes from `Date` methods.
- The ORM and SQL layer is not part of this model. That covers `cards.ts`, `statistics.ts`, `content.ts`, `activity-logs.ts` and the schema relations. The management operations work on abstract magazine and block tables instead.
- The network and the terminal are not part of this model:
  - `fetch` and the query functions that call it;
  - `verifyWithServer` in the command-line tool;
  - the readline prompts, whose answers are arguments;
  - the debug token route.
- Rendering is left out: React components, CSS classes, markdown rendering, and URL validation through `new URL`.
- Floating-point display maths is left out: progress percentages, `translateZ` and rotation angles.
- Timers are left out. `setInterval` and `setTimeout` become explicit calls, such as `Tick` and the start in `SlideChangeEffect`. React effects are modelled as methods run when their dependencies change. Concurrent async requests are not modelled.
- Randomness is an argument:
  - the middleware's 1% prune chance is `pruneRoll`;
  - `generateBlockId` supplies the new block's id.
- `localeCompare` is modelled as character-by-character order (`Stats.Before`). That agrees for the digit-and-dash keys the statistics route sorts.
- `URLSearchParams` escaping is not modelled. The keys and values built here need none.
- Strings are sequences of characters. UTF-16 code units, and so lengths of text outside the Basic Multilingual Plane, are not distinguished. `NaN`, `undefined` and `null` numbers are `None`.
- HeroSlide mouse enter and leave (src/components/home/HeroSlide.tsx:84-90) pause and resume the carousel timer. Those transitions are `SlideTimer.SlideTimer.Pause` and `Resume`; the `HeroSlide` class does not hold a timer.
- SlideTimer.SlideCarousel.GoToNext: requires at least one slide. With none, the source computes a `NaN` index (`% 0`).
- SlideTimer.SlideCarousel.GoToPrev: requires at least one slide, for the same reason.
- MagazineHelpers.ExtractMagazineThumbnail: the query does not order two blocks with the same `blockOrder`. The model takes the earlier table row.
- Pagination.BodyLayout: proved for at most one sibling (the default). With a larger `siblingCount` the middle layout always puts its ellipses in, even when the siblings reach page 2 or the page before the last, so an ellipsis can stand where no page is left out. `Pagination.Body` models that layout; the lemma does not state it.
- RateLimiter.Limiter.Recent: states only that a client with nothing stored has no recent requests. What `Handle` and `Prune` do with the window is stated on them.
- The editor's draft in `localStorage` is not modelled. This covers the create-mode restore of `magazine-preview-data` (src/app/admin/magazines/create/CreateMagazineContent.tsx:117-135), the write before opening the preview (line 223) and the three-second autosave (lines 326-348). The restore effect lists `category` and `credits` among its dependencies (line 136) and has no `isInitialized` guard in create mode. So in create mode every change of category or credits re-runs the restore, and a saved draft overwrites the fields with its own, possibly older, values. This looks unintended; it is not modelled, because the storage and the effect scheduling are outside the model.
- The statistics response's `...result.data` spread and its `timestamp` (src/app/api/control/stats/route.ts:58, 63) are not modelled. `Stats.Get` returns only the weekly and monthly summaries and the role; the other fields of the statistics row pass through unchanged, and the timestamp comes from the clock.
- ControlMagazines.Payload: the image blocks' `imageCaption` and `imageDescription` (src/app/api/control/magazines/route.ts:236-237) are not carried, because the block inputs of this model hold only the markdown, the URL and the source. `logAdminActivity` (line 255) and `revalidatePath` (lines 278-284) are left out: the first is a database write and the second a cache call, both outside the model. A failure of either after `createMagazine` succeeded is not modelled.
- MagazineList: reading the page and category from the URL does not percent-decode. `searchParams.get` decodes `%xx` escapes; the model reads the raw value, which agrees for the digits and category names `updateURL` writes.
- ControlMagazines.Post: a field that is present but not a string is not modelled. The route's `?.trim()` on a non-string `title` or `brandName` (src/app/api/control/magazines/route.ts:133, 140), or on a block's `markdown` or `imageUrl` (lines 173, 180), throws a TypeError, and the catch answers 500 `Internal server error` (lines 308-313). The body's fields are modelled as strings or absent, so only a body that `request.json()` cannot read (line 125) takes the 500 path here.
- Preview.ConvertBlocksToMagazineData: the source sorts `data.blocks` in place (src/app/admin/magazines/preview/page.tsx:159-161), which also reorders the preview state's block array. The model sorts a copy and leaves the state's array as it was. The display sorts its own copy (line 203), so what is shown does not change.
- MagazineHelpers.ParseCreditsColumn: a column holding JSON that is not an array, such as `null`, parses to that value in the source, not to an array. The model's result is a list of credits and cannot say so. The column is only ever written by `JSON.stringify` of an array.

## Findings

| source | as written | input that shows it | evidently intended | confidence | as-written member | corrected member |
|---|---|---|---|---|---|---|
| src/components/home/MagazineCarousel3D.tsx:58-75 | `getShortestPath` compares an unbounded carousel index with a cell index in 0..15, so past the first lap it can turn the long way | from index 25 (cell 9) to cell 0 it returns 16, 9 steps back, where 32 is 7 steps forward; from 32 to cell 1 it turns 15 steps | land on the target cell by at most 8 steps | not executed | Carousel3D.ShortestPathLongWay | Carousel3D.ShortestPathIsShortest |
| src/app/api/control/stats/route.ts:9-17 | `getTokenRole(token)` is not awaited, so `!role` tests a Promise and is always false | any token that matches no role, or no token at all, is answered with the statistics rather than 401 | await the role and answer 401 when there is none | not executed | Stats.GetAsWritten | Stats.Get |
| scripts/token-generator.js:283-286 | the self-test that `--test` runs (lines 300-301) derives a `designer` token, but the script's registry (lines 24-40) has only developer, marketing and pm | `--test` with any environment: the derivation throws, the catch exits 1 | test a role the registry has, so that `--test` exits 0 with Node's hash (`TokenCli.TestsPass`) | not executed | TokenCli.Cli | TokenCli.CliCorrected |
| src/components/admin/AdminLayout.tsx:69-76 | a valid stored token whose role is outside `allowedRoles` sets the error but leaves `showTokenForm` false, and the form renders only when it is true (lines 227-229) | a page with `requireAuth` and `allowedRoles = ['developer']`, and a stored `marketing` token: the page renders nothing | show the token form with the role message | not executed | AdminLayout.DisallowedStoredTokenAsWritten | AdminLayout.DisallowedStoredToken |
