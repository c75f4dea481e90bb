# mimy ranking core, modelled in Dafny

mimy is a restaurant-ranking app. Users rate the shops they visited as best,
good, ok or bad. The rating is a satisfaction tier, and within a tier the
shops are ranked 1..N. The same user-facing taste type (a 32-way code such as
`HASP-A`) is derived from seven taste axes on the server and on the client.
This project models the deterministic core of the app:

- the maintenance scripts that rebuild the `users_ranking` table from reviews
  (deduplicate by shop, group or sort by tier and visit date, number ranks);
- the ranking routes (batch append after a relay session, reorder) and the
  relay route that mixes nearby, saved and random shops into one batch;
- the client state machines: the relay swipe screen with its milestone and
  A-versus-B comparisons, the binary-search placement overlay, onboarding
  (ratings context, shop matching, tier-flattened ranking list), the
  recent-search list, the OTP, phone and profile sign-up steps, group
  registration by e-mail, the admin category scraper and the tag-people sheet;
- the parsers and normalisers: the quoted TSV format of the admin upload and
  import scripts, neighborhood keys, Google Maps markdown scraping, food-kind
  mapping, e-mail domains, phone formatting, Korean particles and relative
  visit dates;
- the Xcode project splicing of `add-plugin.py` and the taste-type and quiz
  classification.

Each source file is one module. Values are datatypes and functions; objects
whose fields change (screens, stores, database tables) are classes whose
methods are proved against specification functions. JavaScript's stable
`Array.prototype.sort` is the stable insertion sort `Sorting.SortBy`; the
shared TSV grammar is `Tsv.Run`. Database rows, server replies, clock readings,
random ids and file contents are parameters of the operations that use them.

## Model

| member | source | states |
|---|---|---|
| AddPlugin.GeneratedIdWellFormed | add-plugin.py:35-38 | each id `uuid4().hex[:24].upper()` is exactly 24 upper-case hexadecimal characters |
| AddPlugin.Hex | add-plugin.py:35-38 | the hex text of a 128-bit value has the requested width and only `0-9a-f` digits |
| AddPlugin.InsertedLengthConstant | add-plugin.py:58-63 | with well-formed ids the eight generated lines (lines 58-63, 100-101, 122-123) always add 933 characters |
| AddPlugin.FindIsFirst | add-plugin.py:66 | `str.find` gives p exactly when p is the first occurrence of the pattern at or after the start offset |
| AddPlugin.InsertAt | add-plugin.py:71 | slicing `content[:p] + ins + content[p:]` keeps the prefix before p, places ins at p and keeps the suffix from p on |
| AddPlugin.SpliceBeforeFirst | add-plugin.py:66-71 | a splice before the anchor fails exactly when the anchor is absent, and otherwise grows the text by the inserted length |
| AddPlugin.SpliceBeforeFirstPlacement | add-plugin.py:66-79 | the file-reference and build-file lines go immediately before the FIRST occurrence of their anchor; prefix and suffix are unchanged |
| AddPlugin.SpliceInList | add-plugin.py:83-103 | the list splice grows the text by exactly the inserted length when it succeeds |
| AddPlugin.SpliceInListPlacement | add-plugin.py:83-125 | the group-children and sources lines go before the first `);` after the first `children = (`/`files = (` after the first marker; the splice fails iff no such position exists |
| AddPlugin.ListEndFound | add-plugin.py:83-97 | any list end position is the one the three chained `find` calls reach |
| AddPlugin.PatchNeedsAnchors | add-plugin.py:41-44 | a manifest without the `/* App */ =` marker or the PBXFileReference end marker is never patched |
| AddPlugin.StageLengths | add-plugin.py:71-125 | each of the four stages grows the content by exactly the length of its two lines |
| AddPlugin.PatchLength | add-plugin.py:71-125 | output length equals input length plus the lengths of the eight inserted lines |
| AddPlugin.RunTwiceDuplicates | add-plugin.py:41-129 | the script is not idempotent: a second successful run adds another 933 characters, so both runs change the text |
| AddPlugin.PatchContent | add-plugin.py:41-125 | the four sequential find-and-splice steps on `content` compute exactly the pure patch, and any missing anchor yields no content to write |
| AddPlugin.Run | add-plugin.py:16-129 | the backup is made iff both plugin files exist; a missing file exits 1 with nothing written; otherwise the written text is the patch of the manifest with the four generated ids, exit status 0 iff something is written, and a write adds exactly 933 characters |
| AdjustShop.TargetIndex | server/scripts/adjust-shop-158-ranking.ts:17-29 | finds a row of the user whose shop is 158, or reports that the user has none |
| AdjustShop.ShiftUp | server/scripts/adjust-shop-158-ranking.ts:66-80 | the first UPDATE, row by row: ranks in [1, currentRank) go up by one and every other row is unchanged |
| AdjustShop.Promote | server/scripts/adjust-shop-158-ranking.ts:84-97 | the second UPDATE, row by row: the shop-158 row gets rank 1 and tier 2 and every other row is unchanged |
| AdjustShop.AdjustUser | server/scripts/adjust-shop-158-ranking.ts:61-103 | one user's transaction: nothing if already rank 1 with tier 2, else shift (only when currentRank > 1) then promote |
| AdjustShop.AdjustAll | server/scripts/adjust-shop-158-ranking.ts:44-127 | every user holding shop 158 is adjusted; other users and the set of users are untouched |
| AdjustShop.AlreadyFirstUnchanged | server/scripts/adjust-shop-158-ranking.ts:63-101 | nothing changes if the target is already rank 1 with tier 2 |
| AdjustShop.AdjustedRows | server/scripts/adjust-shop-158-ranking.ts:63-97 | the target gets rank 1 and tier 2; other ranks in [1, currentRank) go up by one; ranks above currentRank, shops, tiers and users are unchanged |
| AdjustShop.AdjustedKeepsPermutation | server/scripts/adjust-shop-158-ranking.ts:66-97 | with unique shops and ranks a permutation of 1..N, the ranks remain a permutation of 1..N and the other shops keep their relative order |
| Tsv.RowRoundTrip | server/routes/admin.ts:33-67 | writing cells (bare ones free of quotes and tabs, quoted ones with every `"` doubled) and parsing the line gives back exactly the cells' texts: `""` inside quotes is one literal quote and the surrounding quotes are dropped |
| Tsv.FieldsUnquoted | server/routes/admin.ts:55-62 | without quotes the parser is a plain split on tabs, so the field count is the number of tabs plus one |
| Tsv.Escape | server/test_tsv_parser.ts:39-44 | the quoted body of a cell is one character longer per quote it contains |
| Tsv.SplitLines | server/routes/admin.ts:27 | `split(/\r?\n/)` gives one more line than there are newlines, and no line holds a newline |
| Tsv.SplitCrLfLines | server/routes/admin.ts:27 | lines joined with CRLF split back into the same lines |
| Tsv.NonBlank | server/routes/admin.ts:70 | the kept lines are input lines that are not blank after trimming, every such line is kept, and each non-blank line is kept as often as it occurs |
| Tsv.NonBlankAppend | server/routes/admin.ts:70 | the filter works line by line: filtering a concatenation concatenates the filtered parts, so kept lines stay in input order |
| Tsv.NonBlankSingle | server/routes/admin.ts:70 | one line is kept exactly when it is not blank after trimming |
| AdminUpload.ParseTsvLine | server/routes/admin.ts:33-67 | the character loop over `inQuote`/`current` returns exactly the fields of the shared quoted-TSV parser |
| AdminUpload.KindOf | server/routes/admin.ts:97-118 | each of the JSON, integer, float and boolean kinds holds exactly for its own column names; a column is a date column exactly when its name ends in `_at` or `_date` or is `birthdate` and is in none of those sets, and a text column otherwise |
| AdminUpload.Coerce | server/routes/admin.ts:93-119 | undefined, `NULL` and empty cells become null; integer columns are null exactly when radix-less parseInt (with its `0x` hexadecimal reading) finds no number and otherwise hold its value; boolean columns are true iff the ASCII-lowercased value is `true` or the value is `1` or `t`; text columns keep the text |
| AdminUpload.RowOf | server/routes/admin.ts:90-122 | the row object has exactly one key per header |
| AdminUpload.RowOfLastWins | server/routes/admin.ts:91-94 | a header's value is its own column's cell, converted, unless an equal header later overwrites it |
| AdminUpload.LineRows | server/routes/admin.ts:88-123 | one row per data line |
| AdminUpload.LineRowsAppend | server/routes/admin.ts:87-88 | converting the lines batch by batch gives the rows of all lines in order |
| AdminUpload.InsertBatch | server/routes/admin.ts:88-123 | one batch `dataLines.slice(i, end)` parsed line by line gives those lines' rows, appended after the earlier ones |
| AdminUpload.AdminDatabase.UpdateDb | server/routes/admin.ts:12-131 | each rejection holds exactly when its check fails first: missing userId, table or file; a table other than shops or content; a file with fewer than 2 lines. A rejection leaves both tables unchanged. Every request passing the three checks is registered: the named table holds the rows of the non-blank data lines, the other table is unchanged, and the count is their number |
| AdminUpload.AdminDatabase.InsertAll | server/routes/admin.ts:83-129 | after truncation the batch loop of 1000 puts every data line's row into the target table in order, leaves the other table unchanged and counts every line |
| AdminUpload.BoolCells | server/routes/admin.ts:112-113 | `TRUE`, `t` and `1` are true; `yes` and `T` are false; `NULL` and a missing cell are null |
| AdminUpload.TrueCells | server/routes/admin.ts:112 | `TRUE`, `t` and `1` read as true; `yes` and `T` do not |
| Affiliation.ExtractDomain | server/routes/affiliation.ts:35-38 | an address without exactly one `@` gives ""; a non-empty domain holds no `@` and ends the ASCII-lowercased address |
| Affiliation.ExtractDomainOf | server/routes/affiliation.ts:35-38 | for `local@domain` with no other `@`, the domain is the ASCII-lowercased part after the `@` |
| Affiliation.CooldownWindow | server/routes/affiliation.ts:25-30 | isWithinCooldown(null) is false; otherwise it is true iff now < joinedAt + 30 days |
| Affiliation.MatchGroup | server/routes/affiliation.ts:92-95 | the matched group is an active group listing the domain (compared ASCII-lowercased); no match iff no active group lists it |
| Affiliation.RecentCount | server/routes/affiliation.ts:138-143 | the user's verifications created in the last hour are among the records |
| Affiliation.DropPending | server/routes/affiliation.ts:157-161 | the delete keeps exactly the records that belong to other users or are verified |
| Affiliation.PendingIndex | server/routes/affiliation.ts:210-216 | finds an unverified record of the user, or reports that the user has none |
| Affiliation.DropPendingKeepsOne | server/routes/affiliation.ts:157-161 | deleting the user's pending records keeps "at most one unverified record per user" |
| Affiliation.ReplacePendingValid | server/routes/affiliation.ts:157-171 | after a send the user has at most one unverified record, and attempts stay within 0..5 |
| Affiliation.SendGate | server/routes/affiliation.ts:73-150 | checks run in source order: a missing email is EMAIL_REQUIRED; RATE_LIMITED only with 3 or more sends in the last hour; a pass needs fewer than 3, an unused address, an existing user outside the cooldown, and an active group allowing the domain of the trimmed lowercased address |
| Affiliation.GateNeedsDomain | server/routes/affiliation.ts:77-102 | a passing address holds exactly one `@` and its domain is allowed by an active group |
| Affiliation.VerificationStore.SendCode | server/routes/affiliation.ts:68-194 | a rejected check writes nothing; otherwise the user's pending records are replaced by one fresh record (attempts 0, expiry 5 minutes) and a failed mail with a mail key configured is reported after that write |
| Affiliation.VerificationStore.VerifyCode | server/routes/affiliation.ts:200-300 | checks in order: missing code, no pending record, expiry, attempts ≥ 5, each writing nothing; past them an attempt is counted, a wrong trimmed code is INVALID_CODE, and a right one joins exactly the group MatchGroup finds for the record's email domain, or is GROUP_NOT_FOUND exactly when none matches; on success the whole new state is given: the pending record alone changes, with one more attempt and marked verified, and memberships changes only at the user, to that group, the record's email and joinedAt = now |
| Affiliation.CountAttemptValid | server/routes/affiliation.ts:241-244 | counting one more attempt on the pending record keeps at most one pending record per user and attempts within 0..5 |
| Affiliation.MarkVerifiedValid | server/routes/affiliation.ts:241-285 | counting the attempt and marking the pending record verified keeps the invariants and leaves the user no pending record |
| Affiliation.VerificationStore.StorePending | server/routes/affiliation.ts:152-171 | the user's unverified records are deleted and exactly one fresh record is appended with the next id, zero attempts and the expiry set from now; memberships are untouched and the one-pending-record invariant holds |
| AgeCheck.Years | src/screens/onboarding/AgeCheckStep.tsx:82 | the year wheel has currentYear − 1950 + 1 entries, the k-th being currentYear − k |
| AgeCheck.YearsSpec | src/screens/onboarding/AgeCheckStep.tsx:80-82 | years run from the current year down to 1950 inclusive, and hold exactly the years in that range |
| AgeCheck.DaysInMonth | src/screens/onboarding/AgeCheckStep.tsx:85 | the last day of a month lies in 28..31 |
| AgeCheck.ClampDay | src/screens/onboarding/AgeCheckStep.tsx:89-91 | the day never exceeds the month's length, and a day that fits is kept |
| AgeCheck.AcceptedIffOldEnough | src/screens/onboarding/AgeCheckStep.tsx:93-102 | the age (year difference, minus 1 before this year's birthday) is at least 14 iff the birth date is on or before the same day 14 years ago |
| AgeCheck.AgeOnBirthday | src/screens/onboarding/AgeCheckStep.tsx:96-100 | the age is n on the n-th birthday and n − 1 the day before |
| AgeCheck.FormatBirthDateRoundTrip | src/screens/onboarding/AgeCheckStep.tsx:104 | for a four-digit year the stored date is ten characters YYYY-MM-DD with zero-padded month and day, and each part reads back as its number |
| AgeCheck.AgeCheckState.constructor | src/screens/onboarding/AgeCheckStep.tsx:72-77 | the picker starts at 2000-01-01 with no error |
| AgeCheck.AgeCheckState.Pick | src/screens/onboarding/AgeCheckStep.tsx:85-91 | after a year or month change the day is clamped to the number of days in the chosen month, and the underage error stays as it was |
| AgeCheck.AgeCheckState.HandleNext | src/screens/onboarding/AgeCheckStep.tsx:93-110 | an age of 14 or more stores the formatted date; a younger age stores nothing and sets the underage error |
| DiscoveryFilters.Toggle | src/components/discovery/DiscoveryFilters.tsx:32-40 | tapping an already-selected filter gives []; tapping a new one gives exactly [filter]; the result never has more than one filter |
| DiscoveryFilters.ToggleSingle | src/components/discovery/DiscoveryFilters.tsx:32-40 | whatever was selected, the result holds only the tapped filter, and holds it iff it was not selected |
| DiscoveryFilters.ToggleTwice | src/components/discovery/DiscoveryFilters.tsx:32-40 | toggling twice restores a one-filter selection (same chip twice, or another chip then the first), and restores the empty selection |
| DistributeContent.ParseTsvLine | server/scripts/distributeContent.ts:47-72 | the loop that toggles quoting on each unescaped quote and splits only on unquoted tabs returns exactly the fields of the shared quoted-TSV parser |
| DistributeContent.ParseJsonField | server/scripts/distributeContent.ts:75-85 | `[]` gives []; "" and `{}` give null; other text is parsed iff JSON.parse accepts it, else null |
| DistributeContent.SatisfactionToTier | server/scripts/distributeContent.ts:88-95 | tier 2 iff `good`, tier 0 iff `bad`, and every other value (including `ok`) gives tier 1 |
| DistributeContent.IndexOfShop | server/scripts/distributeContent.ts:246 | `shopMap.get`: finds the kept entry of the shop, or reports that there is none |
| DistributeContent.DedupeLatest | server/scripts/distributeContent.ts:243-254 | the shop map never holds more entries than the user has visits |
| DistributeContent.KeepLatest | server/scripts/distributeContent.ts:245-251 | one visit adds at most one entry to the shop map and never removes one |
| DistributeContent.KeepLatestSpec | server/scripts/distributeContent.ts:245-251 | for every shop map and visit: an unknown shop is appended; a known shop is left alone when the new visit is not strictly later, and is replaced at its own position when it is |
| DistributeContent.DedupeSnoc | server/scripts/distributeContent.ts:245-251 | one more entry updates the shop map by exactly one loop step |
| DistributeContent.DedupeOnePerShop | server/scripts/distributeContent.ts:243-254 | no shop appears twice among the unique entries |
| DistributeContent.DedupeFromInput | server/scripts/distributeContent.ts:243-254 | every unique entry is one of the user's entries |
| DistributeContent.DedupeCovers | server/scripts/distributeContent.ts:243-254 | every shop of the input keeps an entry |
| DistributeContent.DedupeLatestVisit | server/scripts/distributeContent.ts:248-249 | the kept entry of a shop has the latest visit date among that shop's entries |
| DistributeContent.DedupeNotLater | server/scripts/distributeContent.ts:248 | for any two visits of one shop where the second is not later, only the first is kept |
| DistributeContent.DedupeLaterReplaces | server/scripts/distributeContent.ts:248-249 | for visits a, b, c where c is a later visit of a's shop and b another shop, the map is c then b: the later visit keeps the first position |
| DistributeContent.DedupeDifferent | server/scripts/distributeContent.ts:245-251 | two visits of different shops are both kept, in visit order |
| DistributeContent.DedupeEqualDateExample | server/scripts/distributeContent.ts:248 | an instance of DedupeNotLater: of two visits on the same date the first one is kept |
| DistributeContent.DedupeLaterDateExample | server/scripts/distributeContent.ts:248-249 | an instance of DedupeLaterReplaces: a later visit takes the first shop's place ahead of the second shop |
| DistributeContent.TierGroup | server/scripts/distributeContent.ts:257-265 | a tier's group holds only unique entries of that tier |
| DistributeContent.TierGroupsPartition | server/scripts/distributeContent.ts:257-265 | with tiers in 0..2 every unique entry falls into exactly one of the three groups |
| DistributeContent.Ranked | server/scripts/distributeContent.ts:275-282 | the k-th entry of a sorted tier gets rank k+1 with that tier |
| DistributeContent.RankUser | server/scripts/distributeContent.ts:235-284 | one user's rankings, as the loops build them, are the tier-2, tier-1 and tier-0 rankings of the deduplicated entries |
| DistributeContent.ShopMap | server/scripts/distributeContent.ts:243-254 | the shop-map loop yields exactly the deduplicated entries in insertion order |
| DistributeContent.GroupByTier | server/scripts/distributeContent.ts:257-265 | the push loop yields the three tier groups in order |
| DistributeContent.TierRanksRestart | server/scripts/distributeContent.ts:268-282 | ranks restart at 1 within each tier and visit dates never increase along the ranks |
| DistributeContent.UserRankingsCount | server/scripts/distributeContent.ts:242-284 | a user gets exactly one ranking per distinct shop |
| FeedInterstitials.FeedConfigSpec | src/config/feedInterstitials.ts:7-66 | with the shipped config: the bonus card shows iff (index+1) % 3 = 0 and its index is floor((index+1)/3) − 1; user recommendation shows iff index = 4; the similar-taste list shows iff pos ≥ 8 and (pos−8) % 7 = 0, its index floor((pos−8)/7), else −1 |
| FeedInterstitials.GetInterstitialConfig | src/config/feedInterstitials.ts:46-68 | for any config with positive intervals: a bonus card or similar-taste list shows only when enabled and then has an index of 0 or more; user recommendation shows exactly at its enabled position; the similar-list index is 0 or more exactly when enabled and at or past its start |
| FeedInterstitials.DisabledNeverShows | src/config/feedInterstitials.ts:52-66 | every flag is false when its config entry is disabled, and the disabled entries' indices are −1 |
| FeedInterstitials.BonusCardIndexCounts | src/config/feedInterstitials.ts:52-55 | the bonus card index at a shown card equals the number of bonus cards shown before it, so successive cards take 0, 1, 2, … |
| FeedInterstitials.SimilarListIndexCounts | src/config/feedInterstitials.ts:61-66 | likewise the similar-taste list index equals the number of lists shown before it |
| Firecrawl.TrimmedLines | server/services/FirecrawlService.ts:101 | every kept line is non-empty and already trimmed |
| Firecrawl.Lines | server/services/FirecrawlService.ts:101 | the markdown's lines are trimmed and the empty ones dropped |
| Firecrawl.DropHashes | server/services/FirecrawlService.ts:132 | removing the leading `#` run never lengthens the line |
| Firecrawl.IndexFrom | server/services/FirecrawlService.ts:154 | the index found is the first occurrence of the character at or after the start, or the end of the text |
| Firecrawl.StripLinksPlain | server/services/FirecrawlService.ts:154 | text without `[` holds no link markup and is left unchanged |
| Firecrawl.StripLinksLink | server/services/FirecrawlService.ts:154 | a link `[text](url)` is replaced by its text and stripping continues after it |
| Firecrawl.VisitFields | server/services/FirecrawlService.ts:128-158 | one loop turn: the first heading while no name is set becomes the name and the turn ends; any other line may set the address and add a category |
| Firecrawl.VisitKeeps | server/services/FirecrawlService.ts:131-137 | a non-empty name or address already found is never replaced |
| Firecrawl.ScanStep | server/services/FirecrawlService.ts:127-159 | the loop over one more line is one more turn |
| Firecrawl.ScanLines | server/services/FirecrawlService.ts:127-159 | the loop mutating shopName, address and categories computes exactly the specification scan |
| Firecrawl.ParseGoogleMapsMarkdown | server/services/FirecrawlService.ts:100-170 | the method (lines, mutating loop, in-place sort, primary category) returns exactly Parse's result |
| Firecrawl.Parse | server/services/FirecrawlService.ts:100-170 | the categories listed are exactly those collected, as a multiset; the primary is null exactly when none was collected, and otherwise is a listed category with the greatest UTF-16 length |
| Firecrawl.FinishFacts | server/services/FirecrawlService.ts:162-169 | Parse's facts for any keyword lists and lines: permutation of the collected categories, primary absent iff none, and otherwise a longest one |
| Firecrawl.NextCategoriesSpec | server/services/FirecrawlService.ts:149-158 | a line adds at most its own cleaned text, only if it is a category line whose cleaned text is new and non-empty, and the list stays duplicate-free |
| Firecrawl.ScanCategoriesStep | server/services/FirecrawlService.ts:127-159 | a turn extends the categories by at most the line's cleaned text and keeps them duplicate-free |
| Firecrawl.ScanCategoriesFrom | server/services/FirecrawlService.ts:149-158 | every category is non-empty and is the link-stripped trimmed text of a line containing a food keyword, no exclude keyword and under 30 UTF-16 units |
| Firecrawl.ScanCategoriesDistinct | server/services/FirecrawlService.ts:155 | duplicates are dropped: no category is collected twice |
| Firecrawl.ScanCategoriesComplete | server/services/FirecrawlService.ts:149-158 | every non-heading category line with non-empty cleaned text contributes it |
| Firecrawl.ScanCategories | server/services/FirecrawlService.ts:149-158 | the three category facts together: from category lines (length in UTF-16 units), distinct, complete |
| Firecrawl.ScanKeepsName | server/services/FirecrawlService.ts:131 | once a non-empty name is set, later lines leave it alone |
| Firecrawl.ScanName | server/services/FirecrawlService.ts:131-134 | no name before any heading, and a set name is some heading line with the `#`s stripped and trimmed |
| Firecrawl.FirstHeadingIsName | server/services/FirecrawlService.ts:131-134 | the first line starting with `#` becomes shopName with the `#`s stripped, when that text is non-empty |
| Firecrawl.ScanKeepsAddress | server/services/FirecrawlService.ts:137 | once an address is set it stays |
| Firecrawl.ScanAddress | server/services/FirecrawlService.ts:137-146 | without an address line there is no address, and an address is always an address line of the input |
| Firecrawl.FirstAddressLine | server/services/FirecrawlService.ts:137-146 | the address is the first non-heading line containing a city keyword or a digit-and-동/로/길 pattern with 10 < `.length` < 100, counted in UTF-16 units |
| Firecrawl.LongerFirstPreorder | server/services/FirecrawlService.ts:162 | the comparator `b.length − a.length`, on UTF-16 lengths, is a total preorder, so the sort is well defined |
| Firecrawl.EmojiCountsTwice | server/services/FirecrawlService.ts:162 | `.length` counts an emoji as two units, so "🍜한식" (4) sorts strictly before "일식당" (3) |
| Firecrawl.FinishSorted | server/services/FirecrawlService.ts:162-169 | allCategories is the collected list sorted by non-increasing UTF-16 length (the sort is in place), as a permutation, still duplicate-free; name and address pass through |
| Firecrawl.FinishPrimary | server/services/FirecrawlService.ts:162-163 | the primary category is null iff nothing was collected, and otherwise is a collected category no other exceeds in UTF-16 length |
| Firecrawl.LongestFirst | server/services/FirecrawlService.ts:162-163 | sorting non-empty strings by UTF-16 length, longest first, yields an empty list only for an empty input, and otherwise starts with a non-empty input string no other exceeds in UTF-16 length |
| FixRankings.ByTierThenRankTotal | server/scripts/fix-all-user-rankings.ts:54-59 | the comparator (tier descending, then old rank ascending) is a total preorder |
| FixRankings.Renumber | server/scripts/fix-all-user-rankings.ts:74-87 | the row at position k gets rank k+1 and keeps everything else |
| FixRankings.FixUser | server/scripts/fix-all-user-rankings.ts:49-93 | one user: the rows sorted by tier descending then old rank are renumbered by position; needsUpdate is set iff some sorted rank differs from its position, and without it the rows are written back unchanged |
| FixRankings.FixedSpec | server/scripts/fix-all-user-rankings.ts:54-88 | new ranks are exactly 1..N in sorted order, and tiers never increase along the ranks |
| FixRankings.FixedRowsFromInput | server/scripts/fix-all-user-rankings.ts:73-88 | only ranks change: each new row is an old row (same shop, tier, user) with its new rank |
| FixRankings.FixedKeepsEveryRow | server/scripts/fix-all-user-rankings.ts:73-88 | no row is lost: every old row appears with its new rank |
| FixRankings.FixedIdempotent | server/scripts/fix-all-user-rankings.ts:62-72 | re-running is idempotent, and on the second run needsUpdate is false so nothing is written |
| FixRankings.FixAll | server/scripts/fix-all-user-rankings.ts:34-94 | every user's rows are fixed independently; the set of users is unchanged |
| FoodKindExpand.ReverseMapNonEmpty | server/utils/foodKindMap.ts:10-107 | every category of the table lists at least one raw value |
| FoodKindExpand.Expand | server/utils/foodKindMap.ts:112-124 | the expansion under the category table is never shorter than the filter and is empty exactly when the filter is |
| FoodKindExpand.ExpandFoodKindFilter | server/utils/foodKindMap.ts:112-124 | the loop pushes, name by name in input order, the category's raw values or else the name itself (Object.prototype names included, which pass through), giving exactly Expand |
| FoodKindExpand.ExpandAppend | server/utils/foodKindMap.ts:114-122 | for any table, names expand independently: the expansion of a concatenation is the concatenation of the expansions |
| FoodKindExpand.ExpandLength | server/utils/foodKindMap.ts:112-124 | for a table whose entries are non-empty (the real one is, by ReverseMapNonEmpty), the result is never shorter than the input, and is empty exactly when the input is |
| FoodKindExpand.ExpandUnknown | server/utils/foodKindMap.ts:118-121 | names that are not categories pass through unchanged and in order |
| FoodKindExpand.ExpandKnown | server/utils/foodKindMap.ts:115-117 | a known category expands to exactly its table entry |
| FoodKindExpand.ExpandCovers | server/utils/foodKindMap.ts:112-124 | every input name is matched: all raw values of a category, or the unknown name itself, appear in the output |
| FoodKindExpand.KoreanExample | server/utils/foodKindMap.ts:1-12 | the 한식 filter matches 한식당 and korean_restaurant; an unmapped value passes through |
| FoodKindExpand.ExpandAsWritten | server/utils/foodKindMap.ts:112-124 | as written, the expansion throws exactly when some name is an Object.prototype key the table does not define, and otherwise equals the intended expansion |
| FoodKindExpand.ConstructorFilterThrows | server/utils/foodKindMap.ts:115-117 | the filter ["constructor"] throws as written, where the intended expansion passes it through |
| FoodKindFormat.StripSuffix | src/lib/foodKindMap.ts:130 | the result is a prefix of the input, and differs from it exactly when the input ends in 음식점, 레스토랑 or 식당 |
| FoodKindFormat.FormatFoodKind | src/lib/foodKindMap.ts:120-138 | a missing or empty value gives the fallback; otherwise the result is the input or a display name, chosen by the ASCII-lowercased, then the trimmed, then the suffix-stripped lookup, in that order |
| FoodKindFormat.UnmappedUnchanged | src/lib/foodKindMap.ts:136-137 | a value none of the three lookups finds comes back unchanged, untrimmed |
| FoodKindFormat.FormatExamples | src/lib/foodKindMap.ts:111-121 | a missing value gives the fallback, and 음식점 maps to itself |
| Geocoding.ParseNeighborhood | server/services/GeocodingService.ts:141-158 | an empty key gives two empty parts; a key with exactly one colon splits into code and name around it; any other key is all display name with no code |
| Geocoding.ParseNeighborhoodRoundTrip | server/services/GeocodingService.ts:131-158 | parsing a stored key gives back the code and the name it was built from, when neither holds a colon |
| Geocoding.CodeOf | server/services/GeocodingService.ts:70-93 | a country code is cut to at most two characters |
| Geocoding.StepFeature | server/services/GeocodingService.ts:65-85 | a feature never replaces a district or city name already found |
| Geocoding.StepContext | server/services/GeocodingService.ts:89-102 | a context entry never replaces a country code, district or city already found |
| Geocoding.ScanContexts | server/services/GeocodingService.ts:88-104 | the whole context array keeps every name already found |
| Geocoding.ScanFeature | server/services/GeocodingService.ts:65-104 | one feature with its context keeps the district and city already found |
| Geocoding.FirstNameWins | server/services/GeocodingService.ts:65-105 | the first district and the first city found survive every later feature |
| Geocoding.PreferredName | server/services/GeocodingService.ts:107-116 | KR and JP prefer the district, other countries the city; the name is empty only when both are |
| Geocoding.RawDisplayName | server/services/GeocodingService.ts:118-121 | without a preferred name, the first feature's own name is used; no features and no name give the empty name |
| Geocoding.Finish | server/services/GeocodingService.ts:123-135 | null exactly when no name was found; otherwise the trimmed name, the key CC:name (the bare name without a code) and the code or XX |
| Geocoding.ExtractNeighborhood | server/services/GeocodingService.ts:59-136 | the loop over features and their contexts computes exactly the functional scan followed by Finish |
| Geocoding.ResultCode | server/services/GeocodingService.ts:70-133 | the code returned is never empty and has at most two characters |
| Geocoding.CodeLength | server/services/GeocodingService.ts:65-105 | the collected code has at most two characters |
| Geocoding.ContextCodeLength | server/services/GeocodingService.ts:89-103 | the context loop keeps the code at most two characters |
| Geocoding.ExtractThenParse | server/services/GeocodingService.ts:131-158 | a stored result parses back into its own display name and the code found |
| GroupRegistration.Slot | src/screens/profile/GroupRegistrationScreen.tsx:105 | a slot keeps only the last character typed, and is empty only when nothing was typed |
| GroupRegistration.JoinLength | src/screens/profile/GroupRegistrationScreen.tsx:114-126 | the joined code is as long as the slots together |
| GroupRegistration.ShortSlotsLength | src/screens/profile/GroupRegistrationScreen.tsx:114 | slots of at most one character reach their count in length exactly when none is empty |
| GroupRegistration.CompleteIffFilled | src/screens/profile/GroupRegistrationScreen.tsx:113-116 | for six one-digit slots the code is submitted exactly when every slot is filled; the length test adds nothing |
| GroupRegistration.SetSlotValid | src/screens/profile/GroupRegistrationScreen.tsx:102-106 | storing the last character of a digit string keeps six slots of at most one digit each |
| GroupRegistration.SentEmailNonEmpty | src/screens/profile/GroupRegistrationScreen.tsx:68-80 | an accepted address, trimmed and ASCII-lowercased before sending, is never empty and never longer than what was typed |
| GroupRegistration.ExpiryOf | src/screens/profile/GroupRegistrationScreen.tsx:87 | a missing or zero lifetime becomes 300 seconds; the lifetime is always positive |
| GroupRegistration.MessageOr | src/screens/profile/GroupRegistrationScreen.tsx:92-149 | the server's non-empty message wins over the default error |
| GroupRegistration.AfterTicksSpec | src/screens/profile/GroupRegistrationScreen.tsx:46-53 | after n ticks the countdown has lost n seconds and stops at zero instead of going negative |
| GroupRegistration.FormatTimeRoundTrip | src/screens/profile/GroupRegistrationScreen.tsx:183-187 | the text is minutes, a colon and two digits below 60, and reads back as the number of seconds given |
| GroupRegistration.FormatTime | src/screens/profile/GroupRegistrationScreen.tsx:183-187 | the text has a colon third from the end and a digit everywhere else |
| GroupRegistration.GroupRegistrationState.constructor | src/screens/profile/GroupRegistrationScreen.tsx:29-36 | the screen starts at the email step with six empty slots, no error and no countdown |
| GroupRegistration.GroupRegistrationState.TypeEmail | src/screens/profile/GroupRegistrationScreen.tsx:251 | the email field takes the typed text and nothing else changes |
| GroupRegistration.GroupRegistrationState.Tick | src/screens/profile/GroupRegistrationScreen.tsx:46-53 | one tick takes a second off a running countdown and leaves zero at zero |
| GroupRegistration.GroupRegistrationState.SendCode | src/screens/profile/GroupRegistrationScreen.tsx:67-99 | a blank address or one without @ only sets the error and sends nothing; otherwise the trimmed lower-cased address is sent, success moves to the code step with empty slots and the reply's lifetime, a rejection shows the server message or the default, a thrown request the network error |
| GroupRegistration.GroupRegistrationState.SubmitCode | src/screens/profile/GroupRegistrationScreen.tsx:125-158 | the given code, or else the joined slots, must have six characters or only the length error is set; success moves to the success step keeping the known group name when the reply has none, a rejection empties the slots |
| GroupRegistration.GroupRegistrationState.CodeChange | src/screens/profile/GroupRegistrationScreen.tsx:101-117 | text with a non-digit changes nothing; otherwise the slot keeps the last character, and once all six slots are filled the joined code is submitted |
| GroupRegistration.GroupRegistrationState.Back | src/screens/profile/GroupRegistrationScreen.tsx:322 | the back button returns to the email step and clears the error, keeping the slots and the address |
| GroupRegistration.GroupRegistrationState.ApplySendReply | src/screens/profile/GroupRegistrationScreen.tsx:85-95 | a success moves to the code step with empty slots, the group name or "", and the given lifetime or 300 seconds; a rejection shows the server message or the send-failed error; a thrown request shows the network error; the slots stay valid |
| ImportContent.ParseJsonField | server/scripts/import_content.ts:10-17 | an empty cell or [] gives the empty array; any other cell gives its parsed value, or null exactly when it is not valid JSON |
| ImportContent.MapRow | server/scripts/import_content.ts:258-276 | a row with fewer than twelve fields gives no record; otherwise both ids are radix-less parseInt of their fields (`0x` reads as hexadecimal), kind and text are copied, and each flag is set only by the exact text true |
| ImportContent.ParseTsvRow | server/scripts/import_content.ts:223-256 | the character loop computes exactly the shared quoted-TSV field splitter |
| ImportContent.JoinLines | server/scripts/import_content.ts:149-182 | joining never yields more rows than lines were read |
| ImportContent.JoinedBalanced | server/scripts/import_content.ts:162-182 | every completed row has an even number of quotes; an unfinished buffer has an odd number |
| ImportContent.JoinLinesKeepsText | server/scripts/import_content.ts:153-182 | joining loses, reorders and changes no text: the rows and buffer joined by newlines are the input lines joined by newlines |
| ImportContent.RecordsOf | server/scripts/import_content.ts:186-200 | there are never more records than data rows |
| ImportContent.Batches | server/scripts/import_content.ts:202-218 | every batch holds between 1 and 1000 records, and all but the last hold exactly 1000 |
| ImportContent.BatchesCover | server/scripts/import_content.ts:202-218 | the batches together hold every record |
| ImportContent.BatchesFull | server/scripts/import_content.ts:202-218 | m full batches and a remainder r give m batches of 1000 followed by one of r |
| ImportContent.ContentImporter.constructor | server/scripts/import_content.ts:140-147 | the importer starts with the existing users, no content and no batches |
| ImportContent.ContentImporter.Flush | server/scripts/import_content.ts:19-208 | a flush creates the batch's missing users, appends its records and records its size |
| ImportContent.ContentImporter.AddRecord | server/scripts/import_content.ts:196-209 | a record joins the pending batch, which is flushed as soon as it reaches 1000; no record is lost or reordered |
| ImportContent.ContentImporter.ReadLine | server/scripts/import_content.ts:149-211 | one line keeps the loop state in step with the joined rows: header skipped, data rows turned into records, full batches stored |
| ImportContent.ContentImporter.Import | server/scripts/import_content.ts:132-221 | every record of the completed rows after the header is stored in order, in batches of 1000 and a smaller last one, and every user they name exists |
| ImportContent.ContentImporter.FlushRest | server/scripts/import_content.ts:213-218 | the remaining records go out as one last, smaller batch |
| ImportContent.UserIdsAppend | server/scripts/import_content.ts:145-199 | the users named by two record lists together are the union of the users each names |
| ImportContent.MapRowFlags | server/scripts/import_content.ts:260-272 | the flags are case-sensitive: TRUE does not set visibility, true sets deletion |
| ImportContent.BatchesAfterFlushed | server/scripts/import_content.ts:202-218 | records already flushed in full batches of 1000 plus a remainder below 1000 give those full batches and then one batch of the remainder, if it is not empty |
| Leaderboard.Score | server/services/LeaderboardService.ts:27-30 | the score rewards both posts (5 each) and likes (3 each), and is zero only for a user with neither |
| Leaderboard.Scored | server/services/LeaderboardService.ts:26-41 | a scored user keeps the id, e-mail and counts of its statistics row and carries their score |
| Leaderboard.ScoreAll | server/services/LeaderboardService.ts:26-41 | every statistics row is scored, one for one and in order |
| Leaderboard.ByScoreDescTotal | server/services/LeaderboardService.ts:46 | the higher-score-first comparator is a total preorder, so the sort is well defined |
| Leaderboard.CompanyUsers | server/services/LeaderboardService.ts:76 | exactly the users with an e-mail ending in the company domain are kept |
| Leaderboard.LeaderboardTable.constructor | server/services/LeaderboardService.ts:6 | the table starts with the rows given |
| Leaderboard.LeaderboardTable.Refresh | server/services/LeaderboardService.ts:7-88 | the table is emptied and then holds the OVERALL board followed by the COMPANY board |
| Leaderboard.BoardSpec | server/services/LeaderboardService.ts:44-64 | a board holds min(100, n) rows ranked 1, 2, ... with non-increasing scores, and is empty exactly when there are no users |
| Leaderboard.BoardIsTop | server/services/LeaderboardService.ts:46-49 | every user is on the board or scores no more than anyone on it |
| Leaderboard.CompanyBoardOnlyCompany | server/services/LeaderboardService.ts:75-77 | every row of the company board belongs to a user with a company e-mail |
| NeighborhoodClient.ExtractFromText | src/screens/profile/NeighborhoodRegistrationScreen.tsx:145-184 | an empty or landmark text changes nothing; a level already filled keeps its name; a level that changes takes the text itself |
| NeighborhoodClient.ExtractAll | src/screens/profile/NeighborhoodRegistrationScreen.tsx:197-202 | reading several texts in turn never replaces a level already filled |
| NeighborhoodClient.TrimAll | src/screens/profile/NeighborhoodRegistrationScreen.tsx:198 | each place_name part is trimmed, one for one |
| NeighborhoodClient.InferCountry | src/screens/profile/NeighborhoodRegistrationScreen.tsx:221-235 | a known code is kept; without one, Korean units give KR before Japanese units give JP; no code results only when neither kind is present |
| NeighborhoodClient.ComposeName | src/screens/profile/NeighborhoodRegistrationScreen.tsx:237-279 | in KR a metropolitan city with a district gives "city district", else a province with a city gives "province city"; outside KR and JP the city, then district, then province is used |
| NeighborhoodClient.FirstNonPoi | src/screens/profile/NeighborhoodRegistrationScreen.tsx:281-290 | the fallback is a non-landmark text of some feature, and is empty exactly when every feature's text is empty or a landmark |
| NeighborhoodClient.Extract | src/screens/profile/NeighborhoodRegistrationScreen.tsx:128-301 | no features give null; a result has no English name yet and a trimmed display name |
| NeighborhoodClient.ScanOne | src/screens/profile/NeighborhoodRegistrationScreen.tsx:186-217 | the loops over place_name parts and context entries compute exactly one step of the functional scan |
| NeighborhoodClient.FindFallback | src/screens/profile/NeighborhoodRegistrationScreen.tsx:281-290 | the search loop with its break returns the first usable feature text |
| NeighborhoodClient.ExtractNeighborhood | src/screens/profile/NeighborhoodRegistrationScreen.tsx:128-301 | the whole procedure computes exactly Extract |
| NeighborhoodClient.FirstMatchWins | src/screens/profile/NeighborhoodRegistrationScreen.tsx:151-182 | once a level holds a name, no later feature replaces it |
| NeighborhoodClient.ContextsKeepAdmin | src/screens/profile/NeighborhoodRegistrationScreen.tsx:205-216 | the context entries never replace a level already filled |
| NeighborhoodClient.ExtractThenParse | src/screens/profile/NeighborhoodRegistrationScreen.tsx:297 | the stored key parses back into the inferred code and the display name |
| NeighborhoodClient.DistrictExample | src/screens/profile/NeighborhoodRegistrationScreen.tsx:164-167 | 강남구 fills the empty district level |
| NeighborhoodClient.LandmarkExample | src/screens/profile/NeighborhoodRegistrationScreen.tsx:137-146 | 롯데타워 is a landmark and changes nothing |
| NeighborhoodClient.ComposeExample | src/screens/profile/NeighborhoodRegistrationScreen.tsx:242-246 | 서울특별시 with 강남구 gives 서울특별시 강남구 |
| NeighborhoodClient.ExtractParts | src/screens/profile/NeighborhoodRegistrationScreen.tsx:197-202 | the loop over the place_name parts leaves exactly the admin levels of the functional fold over those parts |
| NeighborhoodClient.ScanContextList | src/screens/profile/NeighborhoodRegistrationScreen.tsx:205-216 | the loop over the context entries leaves exactly the country code and admin levels of the functional fold over those entries |
| OnboardingContext.WithoutShop | src/context/OnboardingContext.tsx:70 | the filter drops exactly the ratings of the given shop and keeps every other rating |
| OnboardingContext.WithoutShopLength | src/context/OnboardingContext.tsx:70 | the filter removes exactly as many ratings as the shop had |
| OnboardingContext.CountShopUnique | src/context/OnboardingContext.tsx:67-72 | with one rating per shop, a shop is counted once if present and zero times otherwise |
| OnboardingContext.WithoutShopUnique | src/context/OnboardingContext.tsx:70 | filtering keeps ratings one per shop |
| OnboardingContext.AddRating | src/context/OnboardingContext.tsx:67-72 | the new rating comes last; every earlier rating is an old one of another shop; every old rating of another shop is kept; nothing but the ratings changes |
| OnboardingContext.AddRatingSpec | src/context/OnboardingContext.tsx:67-72 | the new rating is last and the only one for its shop, other shops' ratings are kept, ratings stay one per shop, and the list grows by one exactly when the shop is new |
| OnboardingContext.SettersTouchOwnFields | src/context/OnboardingContext.tsx:59-85 | each setter other than addRating replaces its own fields and leaves every other field as it was |
| OnboardingContext.ResetRestoresInitial | src/context/OnboardingContext.tsx:46-89 | reset gives back the initial state, with no ratings, no analysis and no share code, whatever came before |
| OnboardingRanking.SatisfactionOf | src/screens/onboarding/OnboardingRanking.tsx:83 | tier 2 gives good, tier 1 ok, and every other tier bad |
| OnboardingRanking.OfSatisfaction | src/screens/onboarding/OnboardingRanking.tsx:28-30 | the filter keeps only ratings with the given satisfaction, all taken from the input |
| OnboardingRanking.Items | src/screens/onboarding/OnboardingRanking.tsx:35-65 | each rating of a section becomes one shop item of that section's tier, in order |
| OnboardingRanking.SatisfactionsPartition | src/screens/onboarding/OnboardingRanking.tsx:28-30 | the good, ok and bad filters together hold as many ratings as the input |
| OnboardingRanking.BuildFlatList | src/screens/onboarding/OnboardingRanking.tsx:22-68 | no list exactly when there are no ratings; otherwise one item per rating plus three headers, the good header first |
| OnboardingRanking.ScanAppend | src/screens/onboarding/OnboardingRanking.tsx:79-91 | walking a concatenated list is walking the first part and then the second |
| OnboardingRanking.ScanSection | src/screens/onboarding/OnboardingRanking.tsx:79-91 | walking one tier's items appends their batch items and their consecutive ranks after those already given |
| OnboardingRanking.SectionScan | src/screens/onboarding/OnboardingRanking.tsx:34-91 | a header followed by its section sets the tier and appends that section's payload, ranked after the entries already there |
| OnboardingRanking.BatchFor | src/screens/onboarding/OnboardingRanking.tsx:84 | one batch item per rating |
| OnboardingRanking.ReorderFor | src/screens/onboarding/OnboardingRanking.tsx:85-89 | one reorder item per rating |
| OnboardingRanking.SaveAsBuilt | src/screens/onboarding/OnboardingRanking.tsx:22-101 | saving the list as built sends the good, then ok, then bad ratings with their own satisfaction, ranked 1..n in that order |
| OnboardingRanking.ScanThree | src/screens/onboarding/OnboardingRanking.tsx:79-91 | walking three concatenated parts is walking them one after the other |
| OnboardingRanking.PayloadsAgree | src/screens/onboarding/OnboardingRanking.tsx:74-91 | for any rearranged list both payloads name the same shops in the same order, ranks run 1..k, and each satisfaction matches its tier |
| OnboardingRanking.PayloadFollowsList | src/screens/onboarding/OnboardingRanking.tsx:79-91 | the payload holds exactly the list's shop items in list order, each with the tier of the nearest header above it |
| OnboardingRanking.BuildPayloads | src/screens/onboarding/OnboardingRanking.tsx:74-91 | the forEach with its running tier and rank counter computes exactly the walk's two payloads |
| OnboardingRanking.HandleSave | src/screens/onboarding/OnboardingRanking.tsx:93-101 | each request is sent with its payload, and skipped when the payload is empty |
| OtpStep.CodeAfterChange | src/screens/register/OtpStep.tsx:76-78 | the field keeps only digits and never grows |
| OtpStep.CodeAfterChangeSpec | src/screens/register/OtpStep.tsx:74-78 | the digits typed are kept in order; filtering twice changes nothing more; an all-digit value is kept whole; a value within maxLength stays within it |
| OtpStep.TickIsCountdown | src/screens/register/OtpStep.tsx:14 | a tick takes one second off a running timer and leaves zero at zero, exactly like the group registration countdown |
| OtpStep.TimerAfterSpec | src/screens/register/OtpStep.tsx:10-17 | after n seconds the timer shows 180 - n, and zero from then on |
| OtpStep.FormatTimeSpec | src/screens/register/OtpStep.tsx:19-23 | the text equals the group registration screen's, ends in a colon and two digits, and reads back as the seconds given |
| OtpStep.FormatTime | src/screens/register/OtpStep.tsx:19-23 | the text has a colon third from the end and a digit everywhere else |
| OtpStep.CanVerifySpec | src/screens/register/OtpStep.tsx:76-97 | Verify is enabled exactly when six digits have been typed, and the code is then six digits |
| PhoneStep.RemoveDashes | src/screens/register/PhoneStep.tsx:23-71 | the result has no dash and is never longer than the input |
| PhoneStep.RemoveDashesAppend | src/screens/register/PhoneStep.tsx:23 | removing dashes distributes over concatenation |
| PhoneStep.RemoveDashesDigits | src/screens/register/PhoneStep.tsx:23 | a digit string has no dash to remove |
| PhoneStep.FormatPhoneNumberSpec | src/screens/register/PhoneStep.tsx:14-19 | without its dashes the formatted number is the first eleven digits typed; up to three digits come back bare, up to seven as ddd-rest, longer input as ddd-dddd-dddd |
| PhoneStep.FormatPhoneNumber | src/screens/register/PhoneStep.tsx:14-19 | the formatted number has at most 13 characters, each a digit or a dash |
| PhoneStep.DashesOfMiddle | src/screens/register/PhoneStep.tsx:17 | ddd-rest without its dash is the digits it was made from |
| PhoneStep.DashesOfLong | src/screens/register/PhoneStep.tsx:18 | ddd-dddd-rest without its dashes is the digits it was made from |
| PhoneStep.PhoneChangeAlwaysTaken | src/screens/register/PhoneStep.tsx:21-26 | the eleven-digit guard never rejects a formatted number, so the field always takes the new value |
| PhoneStep.CanSendSpec | src/screens/register/PhoneStep.tsx:21-71 | after typing, Send Code is enabled exactly when at least ten digits were typed |
| ProfileStep.Strip | src/screens/register/ProfileStep.tsx:205 | the result holds only [a-z0-9_.] and is never longer than the input |
| ProfileStep.Sanitize | src/screens/register/ProfileStep.tsx:205 | a handle ASCII-lowercased and filtered holds only [a-z0-9_.] and is never longer than what was typed |
| ProfileStep.StripAppend | src/screens/register/ProfileStep.tsx:205 | the filter distributes over concatenation |
| ProfileStep.StripKeepsHandle | src/screens/register/ProfileStep.tsx:205 | a string of handle characters passes the filter whole |
| ProfileStep.SanitizeSpec | src/screens/register/ProfileStep.tsx:204-208 | sanitising works character by character, turns ASCII capitals into small letters, keeps a valid handle as it is, and is idempotent |
| ProfileStep.NextDisabled | src/screens/register/ProfileStep.tsx:147-152 | Next is disabled on the handle step until the handle is available, on the nickname step while the nickname is empty, on the photo step while saving or uploading |
| ProfileStep.ProfileState.constructor | src/screens/register/ProfileStep.tsx:10-19 | the screen starts on the handle step with empty fields, no photo and an idle status |
| ProfileStep.ProfileState.HandleEffect | src/screens/register/ProfileStep.tsx:24-36 | off the handle step, or with a handle under three characters, the status goes idle and the message is cleared; otherwise a check is scheduled and nothing changes yet |
| ProfileStep.ProfileState.TypeHandle | src/screens/register/ProfileStep.tsx:204-208 | the handle becomes the sanitised text and the status goes idle |
| ProfileStep.ProfileState.TypeNickname | src/screens/register/ProfileStep.tsx:248 | the nickname takes the typed text and nothing else changes |
| ProfileStep.ProfileState.CheckAvailability | src/screens/register/ProfileStep.tsx:38-58 | a handle under three characters is not sent; otherwise the reply sets available, or taken with the message, and a failed request leaves the status idle for a retry |
| ProfileStep.ProfileState.Back | src/screens/register/ProfileStep.tsx:60-66 | back goes one step back, or leaves the screen from the first step |
| ProfileStep.ProfileState.ChoosePhoto | src/screens/register/ProfileStep.tsx:68-98 | without a file nothing changes; otherwise an uploaded URL becomes the photo, a failed upload keeps the old one, and uploading ends either way |
| ProfileStep.ProfileState.Next | src/screens/register/ProfileStep.tsx:100-145 | the handle step moves on exactly when its button is enabled, the nickname step always; on the last step a missing or empty stored user id (falsy) goes to login, any other sends the handle, nickname and photo, and moves to the quiz on success or re-enables the button on failure |
| Quiz.ParseMatchLine | server/utils/quiz.ts:74-81 | a line yields a row exactly when it is not blank, does not start with value and holds a tab; the key is trimmed and tab-free |
| Quiz.MatchRows | server/utils/quiz.ts:71-82 | every line of match.tsv is parsed on its own, one for one |
| Quiz.ApplyRowsStep | server/utils/quiz.ts:73-82 | one more line sets its key, when it parsed, on top of the table so far |
| Quiz.ReadMatchLines | server/utils/quiz.ts:73-82 | the loop computes the table of the parsed rows set in order |
| Quiz.ApplyRowsKeys | server/utils/quiz.ts:73-82 | a key is in the table exactly when it was there before or some parsed row sets it |
| Quiz.ApplyRowsLastWins | server/utils/quiz.ts:79 | a row that no later row overrides decides its key's value |
| Quiz.AxisOf | server/utils/quiz.ts:126 | question q belongs to the axis a with 3a+1 <= q <= 3a+3 |
| Quiz.RoundThird | server/utils/quiz.ts:145-147 | the result is the nearest integer to sum/3 |
| Quiz.Clamp | server/utils/quiz.ts:149 | the result lies in -2..2 and a value already there is unchanged |
| Quiz.ScoreVector | server/utils/quiz.ts:125-153 | seven scores, each within -2..2 |
| Quiz.IntStrings | server/utils/quiz.ts:156 | each score is rendered on its own, in order |
| Quiz.LookupKey | server/utils/quiz.ts:156 | splitting a non-empty vector's key on commas gives back each score's text, in order |
| Quiz.LookupKeyDecodes | server/utils/quiz.ts:156 | the key splits on commas into seven parts that parse back to the scores |
| Quiz.NoCommaInNumber | server/utils/quiz.ts:156 | a rendered integer holds no comma |
| Quiz.LookupKeyInjective | server/utils/quiz.ts:156-160 | two score vectors share a lookup key exactly when they are equal |
| Quiz.ClampInactive | server/utils/quiz.ts:129-149 | for answers in 0..5 the rounded mean already lies in -2..2, so the clamp never acts |
| Quiz.EmptyAnswersNeutral | server/utils/quiz.ts:129 | an empty answer sheet scores 0 on every axis |
| Quiz.QuizManager.constructor | server/utils/quiz.ts:42-46 | the manager starts with empty tables and not loaded |
| Quiz.QuizManager.LoadData | server/utils/quiz.ts:55-106 | a loaded manager changes nothing; otherwise match.tsv's rows are set when the file exists, the clusters when cluster.json parses, and the manager counts as loaded unless cluster.json is malformed |
| Quiz.QuizManager.StoreMatchRows | server/utils/quiz.ts:71-82 | the lookup table gets the parsed rows in order; nothing else changes |
| Quiz.QuizManager.StoreClusters | server/utils/quiz.ts:92-94 | each cluster is stored under radix-less parseInt of its id (so `0x` ids read as hexadecimal), later ones winning; nothing else changes |
| Quiz.QuizManager.Calculate | server/utils/quiz.ts:108-181 | the scores are the score vector; the cluster is the table's entry for its key or 1 when none; the cluster data is present exactly when stored for that id |
| Quiz.LoadedRowDecides | server/utils/quiz.ts:73-160 | a match.tsv line no later line overrides decides the cluster of the answers whose key it holds |
| RankingOverlay.TierOf | src/screens/write/RankingOverlay.tsx:85-92 | good gives tier 2, bad tier 0, and ok or anything else tier 1 |
| RankingOverlay.Percentile | src/screens/write/RankingOverlay.tsx:108-109 | the percentile is the exact ceiling of 100 * rank / total |
| RankingOverlay.RankIsPlace | src/screens/write/RankingOverlay.tsx:97-106 | when the candidates hold the consecutive ranks just below the higher tiers, the new shop takes base + 1 + its insert index |
| RankingOverlay.PercentileRange | src/screens/write/RankingOverlay.tsx:108-109 | a rank between 1 and the new total gives a percentile between 1 and 100 |
| RankingOverlay.CancelFactor | src/screens/write/RankingOverlay.tsx:109 | a positive factor can be cancelled from both sides of a strict inequality |
| RankingOverlay.ChoiceKeepsBracket | src/screens/write/RankingOverlay.tsx:127-146 | with consistent answers each choice keeps every candidate the new shop beats to the right of the range and every one it loses to the left, and shrinks the range |
| RankingOverlay.SearchFindsBoundary | src/screens/write/RankingOverlay.tsx:137-138 | when the range empties, the index saved is the first candidate the new shop beats, or the end of the list |
| RankingOverlay.RankingOverlayState.constructor | src/screens/write/RankingOverlay.tsx:27-39 | the overlay starts at the satisfaction step, loading, with no result and no candidates |
| RankingOverlay.RankingOverlayState.SelectSatisfaction | src/screens/write/RankingOverlay.tsx:149-152 | choosing a satisfaction records it and moves to the ranking step |
| RankingOverlay.RankingOverlayState.SaveRank | src/screens/write/RankingOverlay.tsx:94-125 | the optimistic rank, the total plus one and the percentile are shown and the insert index is sent; a failed send shows rank 0 alone |
| RankingOverlay.RankingOverlayState.FetchCandidates | src/screens/write/RankingOverlay.tsx:48-83 | a thrown request ends at the success step; a failed one saves index 0; no candidates save index 0 and finish; otherwise the search starts on the whole list at its middle |
| RankingOverlay.RankingOverlayState.HandleChoice | src/screens/write/RankingOverlay.tsx:127-147 | the range is halved towards the winner; once empty the shop is saved at the new lower bound, which lies in 0..len, and the overlay finishes |
| RankingRoute.MapSatisfactionToTier | server/routes/ranking.ts:126-133 | tiers lie in 0..2; ok is exactly tier 1, bad exactly tier 0, and good or anything else tier 2 |
| RankingRoute.SortKeyAsWritten | server/routes/ranking.ts:143-146 | as written, ok alone gets key 1 and every other satisfaction, good included, gets key 2 |
| RankingRoute.ByKeyAsWrittenTotal | server/routes/ranking.ts:143-146 | the comparator as written is a total preorder, so the sort is well defined |
| RankingRoute.GroupsSplit | server/routes/ranking.ts:143-146 | the 'ok' group and the other group hold only their own kind and together count every item |
| RankingRoute.SortAsWritten | server/routes/ranking.ts:142-146 | the stable sort as written is exactly the 'ok' items followed by every other item, each group in input order |
| RankingRoute.ByTierTotal | server/routes/ranking.ts:142-146 | the intended good-ok-bad comparator is a total preorder |
| RankingRoute.MaxRank | server/routes/ranking.ts:136-140 | the result bounds every rank of the user, is 0 without rows, and is one of the ranks otherwise |
| RankingRoute.Inserted | server/routes/ranking.ts:149-175 | the old rows stay in front, unchanged, and at most one row per item is added |
| RankingRoute.InsertedSnoc | server/routes/ranking.ts:149-175 | one more item is skipped when its shop has a row, else appended with the next rank and its tier |
| RankingRoute.InsertItems | server/routes/ranking.ts:149-175 | the insert loop with its running rank computes exactly the rows of Inserted |
| RankingRoute.FindShop | server/routes/ranking.ts:151-162 | the existence query finds a row exactly when the user already ranks the shop |
| RankingRoute.Batch | server/routes/ranking.ts:117-186 | a body that is not an array or is empty is rejected and nothing changes; otherwise the user's rows become the rows of the batch sorted by the comparator as written, and the count is every item sent, skipped ones included |
| RankingRoute.InsertedRanks | server/routes/ranking.ts:140-171 | the new rows belong to the user and take the ranks after the old maximum, one by one |
| RankingRoute.InsertedShops | server/routes/ranking.ts:149-175 | every item's shop has a row afterwards, and a new row never repeats a shop already present |
| RankingRoute.InsertedUnique | server/routes/ranking.ts:149-175 | one row per shop before gives one row per shop after |
| RankingRoute.InsertedTiersAtLeast | server/routes/ranking.ts:165-170 | new rows take tiers no lower than every item's tier bound |
| RankingRoute.InsertedTiersOrdered | server/routes/ranking.ts:142-175 | items in tier order give new rows whose tiers never increase |
| RankingRoute.AfterBatchSpec | server/routes/ranking.ts:135-176 | as written, a batch keeps the old rows and inserts the 'ok' items first, then every other item in input order, with the user's id and the ranks after the old maximum |
| RankingRoute.IntendedBatchSpec | server/routes/ranking.ts:142 | in the intended good-ok-bad order, the new rows follow the old ones with consecutive ranks and tiers that never increase |
| RankingRoute.GoodAfterOkAsWritten | server/routes/ranking.ts:143-146 | as written, a good item sent before an ok item is ranked under it |
| RankingRoute.GoodBeforeOk | server/routes/ranking.ts:142 | in the intended order the same batch ranks the good shop first |
| RankingRoute.LastItemFor | server/routes/ranking.ts:200-211 | the index found names the shop and no later item does; none means no item names it |
| RankingRoute.ApplyItem | server/routes/ranking.ts:201-210 | one update keeps the number of rows |
| RankingRoute.Reordered | server/routes/ranking.ts:200-211 | the reorder loop keeps the number of rows |
| RankingRoute.ReorderedSpec | server/routes/ranking.ts:200-211 | only the listed shops change, each taking the rank and tier of the last item naming it; user and shop never change |
| RankingRoute.Reorder | server/routes/ranking.ts:190-222 | a body that is not an array is rejected and nothing changes; otherwise the user's rows become the reordered rows |
| RankingRoute.ReorderRows | server/routes/ranking.ts:200-211 | the loop over the items computes exactly Reordered |
| RankingRoute.UpdateShop | server/routes/ranking.ts:201-210 | the update sets rank and tier on the rows of that shop and leaves the others alone |
| RecalcRanking.LiveReviews | server/scripts/recalc_ranking.ts:38-44 | keeps exactly the rows of this user that are reviews and not deleted, and only rows of the input |
| RecalcRanking.ReviewsNewestFirst | server/scripts/recalc_ranking.ts:45 | the reviews come back newest created_at first |
| RecalcRanking.CandidateOf | server/scripts/recalc_ranking.ts:53-72 | a review yields a candidate iff it has a non-zero shop_id; its date is visit_date when present and created_at otherwise; a missing satisfaction counts as 'good' and is mapped to its tier |
| RecalcRanking.Candidates | server/scripts/recalc_ranking.ts:52-80 | at most one candidate per review, and every candidate tier is within 0..3 |
| RecalcRanking.CandidatesSnoc | server/scripts/recalc_ranking.ts:52-54 | a review with a shop appends its candidate; one without a shop is skipped |
| RecalcRanking.FirstIndexOf | server/scripts/recalc_ranking.ts:61 | the reference position of a shop's first entry: it holds the shop and no earlier entry does; None iff no entry holds it |
| RecalcRanking.FirstPerShop | server/scripts/recalc_ranking.ts:50-80 | the deduplicated list is never longer than the candidate list |
| RecalcRanking.KeepFirst | server/scripts/recalc_ranking.ts:61-73 | a shop not yet in the map adds one entry, an existing one adds nothing |
| RecalcRanking.FirstPerShopOnePerShop | server/scripts/recalc_ranking.ts:50-80 | the shop map holds at most one entry per shop |
| RecalcRanking.KeepFirstCovers | server/scripts/recalc_ranking.ts:61-73 | one step of the loop keeps every shop seen so far represented |
| RecalcRanking.FirstPerShopCovers | server/scripts/recalc_ranking.ts:50-80 | every shop among the candidates keeps an entry |
| RecalcRanking.FirstIndexOfSnoc | server/scripts/recalc_ranking.ts:58-61 | appending an entry does not move a shop's first position, and gives a new shop its first position |
| RecalcRanking.KeepFirstKept | server/scripts/recalc_ranking.ts:58-73 | one step of the loop keeps each kept entry equal to the first entry of its shop |
| RecalcRanking.FirstPerShopKeepsFirst | server/scripts/recalc_ranking.ts:58-73 | each kept entry is the first (newest-created) review of its shop |
| RecalcRanking.TiersDown | server/scripts/recalc_ranking.ts:112-116 | the order of tier lists t..3 only holds entries of those tiers |
| RecalcRanking.SortedTier | server/scripts/recalc_ranking.ts:114-116 | sorting a tier list keeps it inside that tier |
| RecalcRanking.TiersDownOrdered | server/scripts/recalc_ranking.ts:112-126 | tiers never increase along the order, and within a tier visit dates never increase |
| RecalcRanking.RankedTiers | server/scripts/recalc_ranking.ts:110-126 | ranks run 1..N over all tiers with the global counter, tier 3 first |
| RecalcRanking.TiersDownStep | server/scripts/recalc_ranking.ts:112-116 | tier t's sorted list follows the higher tiers |
| RecalcRanking.RankAllSnoc | server/scripts/recalc_ranking.ts:118-124 | pushing one item gives it the next rank, its shop and its tier |
| RecalcRanking.NewRankings | server/scripts/recalc_ranking.ts:110-126 | every new row belongs to the user and the k-th has rank k+1 |
| RecalcRanking.ShopMap | server/scripts/recalc_ranking.ts:50-80 | the loop builds exactly the first-per-shop candidate list |
| RecalcRanking.GroupTiers | server/scripts/recalc_ranking.ts:86-97 | the four tier buckets hold exactly the candidates of each tier, in order |
| RecalcRanking.PushTier | server/scripts/recalc_ranking.ts:118-125 | the forEach appends the ranked list and leaves the counter one past the last rank |
| RecalcRanking.AssignRanks | server/scripts/recalc_ranking.ts:110-126 | the tier loop produces the ranked tier-3-first order |
| RecalcRanking.RecalcUser | server/scripts/recalc_ranking.ts:47-126 | one user's new rankings are the ranked, tiered, first-per-shop candidates of their reviews |
| RecalcRanking.Recalculate | server/scripts/recalc_ranking.ts:20-141 | each user with id 191..318 and a non-empty new list gets exactly that list; every other user's rows are unchanged |
| RecalcRanking.ProcessedStep | server/scripts/recalc_ranking.ts:20-141 | one more user keeps the loop invariant: users done in range with rows have their new rows, every other user keeps their old rows |
| RecalcRankings.SortKey | server/scripts/recalc_rankings.ts:6-11 | the key is 1..5; best, good, ok and bad get 1..4 respectively, each iff the satisfaction is that word, and anything else gets 5 |
| RecalcRankings.StoredTier | server/scripts/recalc_rankings.ts:89 | a known satisfaction stores its map value as the tier; an unknown one stores the default 2 |
| RecalcRankings.ValidReview | server/scripts/recalc_rankings.ts:33-42 | the mapped review keeps the shop and the satisfaction key; a missing visit_date becomes 1970-01-01 |
| RecalcRankings.ValidReviews | server/scripts/recalc_rankings.ts:22-43 | no more reviews than rows, and the list is empty iff the user has no non-deleted row with a non-zero shop_id |
| RecalcRankings.ToInsert | server/scripts/recalc_rankings.ts:85-90 | one row per unique review, in order, ranked from 1, with the tier from the key |
| RecalcRankings.NewRankings | server/scripts/recalc_rankings.ts:85-90 | every new row belongs to the user and the k-th has rank k+1 |
| RecalcRankings.ByKeyThenDateTotal | server/scripts/recalc_rankings.ts:50-60 | the comparator is a total preorder, so the sort is well defined |
| RecalcRankings.UniqueReviews | server/scripts/recalc_rankings.ts:70-77 | the seenShops loop keeps exactly the first review of each shop in sorted order |
| RecalcRankings.RecalcUser | server/scripts/recalc_rankings.ts:45-90 | the inserted rows are the ranked first-per-shop reviews in key-then-date order |
| RecalcRankings.NewRankingsSpec | server/scripts/recalc_rankings.ts:70-90 | ranks are exactly 1..N for the user and no shop appears twice |
| RecalcRankings.KeptReviewIsBest | server/scripts/recalc_rankings.ts:50-77 | the review kept for a shop has the lowest key of that shop's reviews, and the latest visit among those with that key |
| RecalcRankings.SkippedIffNoValidReview | server/scripts/recalc_rankings.ts:45-79 | a user is skipped exactly when they have no review with a shop |
| RecalcRankings.RecalcAll | server/scripts/recalc_rankings.ts:17-96 | every user with a valid review gets exactly their new rows; every other user's rows are unchanged |
| RecalcRankings.RecalcOne | server/scripts/recalc_rankings.ts:19-95 | one pass of the user loop: the user's rows become their new rankings when there are any, and the table is otherwise left as it was |
| RecentSearches.Without | src/hooks/useRecentSearches.ts:26 | the filter keeps exactly the entries other than the keyword and never grows the list |
| RecentSearches.WithoutAppend | src/hooks/useRecentSearches.ts:26 | filtering keeps the other entries in their order |
| Text.Take | src/hooks/useRecentSearches.ts:27 | slice(0, n) is the prefix of length min(n, length) |
| RecentSearches.WithoutNoDuplicates | src/hooks/useRecentSearches.ts:26 | filtering a list without repeats leaves it without repeats |
| RecentSearches.Added | src/hooks/useRecentSearches.ts:20-29 | a blank keyword leaves the list; otherwise the trimmed keyword is first, the list holds 1 to 10 entries, and every entry is the keyword or an old one |
| RecentSearches.AddedSpec | src/hooks/useRecentSearches.ts:20-29 | a blank keyword changes nothing; otherwise the trimmed keyword comes first and nowhere else, then the other entries in their old order, at most ten in all; no repeats are introduced |
| RecentSearches.RemovedSpec | src/hooks/useRecentSearches.ts:37-39 | removeSearch drops exactly the equal entries and keeps the others in order |
| RecentSearches.RecentSearchList.constructor | src/hooks/useRecentSearches.ts:7 | the list starts empty |
| RecentSearches.RecentSearchList.Load | src/hooks/useRecentSearches.ts:9-18 | a stored list replaces the state; without one the state stays |
| RecentSearches.RecentSearchList.AddSearch | src/hooks/useRecentSearches.ts:20-35 | the state becomes the added list and is written to storage; a blank keyword writes nothing |
| RecentSearches.RecentSearchList.RemoveSearch | src/hooks/useRecentSearches.ts:37-45 | the state becomes the filtered list and is written to storage |
| RecentSearches.RecentSearchList.ClearSearches | src/hooks/useRecentSearches.ts:47-54 | the state is emptied and the stored copy removed |
| RedistributeFast.MapSatisfactionToTier | server/scripts/redistribute_users_content_fast.ts:7-15 | the tier is 0..3: best iff 3, ok iff 1, bad iff 0, and good or anything unknown 2 |
| RedistributeFast.VisitDate | server/scripts/redistribute_users_content_fast.ts:106-112 | visit_date when present, else created_at, else the epoch |
| RedistributeFast.CandidateOf | server/scripts/redistribute_users_content_fast.ts:101-121 | a row yields a candidate iff it is a review with a non-zero shop_id; it carries the shop, the visit date and the tier of its satisfaction (missing counts as good) |
| RedistributeFast.CandidateEntries | server/scripts/redistribute_users_content_fast.ts:100-133 | no more candidates than rows, and none iff no row is a candidate |
| RedistributeFast.CandidateEntriesSnoc | server/scripts/redistribute_users_content_fast.ts:100-104 | a candidate row appends its candidate; any other row is skipped |
| RedistributeFast.ByTierThenDateTotal | server/scripts/redistribute_users_content_fast.ts:144-149 | the comparator is a total preorder, so the sort is well defined |
| RedistributeFast.RankAll | server/scripts/redistribute_users_content_fast.ts:151-156 | one row per candidate, in order, with continuous ranks from 1 and the candidate's shop and tier |
| RedistributeFast.RankRows | server/scripts/redistribute_users_content_fast.ts:151-156 | the map produces exactly the ranked rows |
| RedistributeFast.NewRankings | server/scripts/redistribute_users_content_fast.ts:135-156 | every new row belongs to the user and the k-th has rank k+1 |
| RedistributeFast.CollectCandidates | server/scripts/redistribute_users_content_fast.ts:98-135 | the rankingCandidates map holds the latest visit per shop, in first-insertion order |
| RedistributeFast.RecalcUser | server/scripts/redistribute_users_content_fast.ts:86-168 | the rows the user is left with are the ranked, sorted, deduplicated candidates, or none |
| RedistributeFast.NewRankingsSpec | server/scripts/redistribute_users_content_fast.ts:135-156 | ranks are exactly 1..N, tiers never increase along them and no shop is ranked twice |
| RedistributeFast.NewRankingsDateOrder | server/scripts/redistribute_users_content_fast.ts:144-149 | within one tier the later visit comes first |
| RedistributeFast.NewRankingsEmpty | server/scripts/redistribute_users_content_fast.ts:93-139 | the rankings are deleted exactly when no row is a ranking candidate |
| RedistributeFast.Recalculate | server/scripts/redistribute_users_content_fast.ts:80-172 | every user from 191 to 1318 is left with exactly their new rows; every other user's rows are unchanged |
| RedistributeFast.PutCandidate | server/scripts/redistribute_users_content_fast.ts:114-132 | one candidate visit: a shop not yet in the map is appended, a known shop is replaced only by a strictly later visit (the KeepLatest step) |
| Relay.CeilDiv | server/routes/relay.ts:49-51 | the result is the least q with d * q >= b, which is what Math.ceil of b * 0.5 or b * 0.25 gives |
| Relay.LimitsSpec | server/routes/relay.ts:49-51 | nearby gets ceil(b/2), saved and global get ceil(b/4) each; for the default 20 that is 10, 5 and 5 |
| Relay.OrDefault | server/routes/relay.ts:27-28 | parseInt(x) or the default: an unparsable or zero value gives the default |
| Relay.SliceTo | server/routes/relay.ts:170-179 | slice(0, end) keeps the prefix of length end, counting back from the length when end is negative |
| Relay.Ids | server/routes/relay.ts:173-176 | the set holds exactly the ids of the rows |
| Relay.Unused | server/routes/relay.ts:177-178 | the filter keeps only rows of the input whose id is not used |
| Relay.UniqueGlobal | server/routes/relay.ts:172-179 | every global row kept comes from the global query and reuses no id of a nearby or saved row, and a non-negative global limit bounds their number |
| Relay.SavedThenScoreTotal | server/routes/relay.ts:210-216 | the comparator is a total preorder: saved first, then the higher score with null as -1 |
| Relay.OutAll | server/routes/relay.ts:196-207 | one response row per merged row, in order, with its id, source and match score or null |
| Relay.Merged | server/routes/relay.ts:182-186 | the merged list starts with the saved rows and holds only rows of the three queries |
| Relay.UniqueGlobalSpec | server/routes/relay.ts:172-179 | the global rows kept come from the global query, reuse no id of a nearby or saved row, and are at most the global limit |
| Relay.SelectGlobal | server/routes/relay.ts:173-179 | the used-id set and the filter produce exactly the kept global rows |
| Relay.NonFiniteRejected | server/routes/relay.ts:30-32 | a location that is not a finite number gives 400 before anything else |
| Relay.GetShops | server/routes/relay.ts:21-227 | the handler's response is the modelled one: 400 for a bad location, 500 when a negative LIMIT or OFFSET is refused, an empty list without more, or the sorted merged rows |
| Relay.Respond | server/routes/relay.ts:21-227 | 400 exactly for a non-finite location; 500 exactly when a finite location meets a negative LIMIT or OFFSET; a list response holds exactly the merged rows' output rows, as a multiset |
| Relay.ResponseOrder | server/routes/relay.ts:182-216 | a successful response holds exactly the merged rows, saved shops first, and among the saved rows, and among all other rows (nearby and global interleaved), scores never increase, null counting as −1 |
| Relay.HasMoreSpec | server/routes/relay.ts:168-220 | has_more is false for an empty result and otherwise says whether nearby overflowed or a global row was kept |
| RelayScreen.SatisfactionOf | src/screens/relay/RelayScreen.tsx:139-147 | right is good, left is bad, and up or back is ok, each both ways |
| RelayScreen.Count | src/screens/relay/RelayScreen.tsx:149-154 | one more rating is recorded and exactly the counter of its satisfaction goes up; skips are untouched |
| RelayScreen.Group | src/screens/relay/RelayScreen.tsx:282-285 | a tier's group holds only ratings of that tier, taken from the list |
| RelayScreen.TargetTierSpec | src/screens/relay/RelayScreen.tsx:287-298 | no target iff every tier has fewer than two ratings; otherwise the target has at least two and the most, and a tie goes to the earlier of good, ok, bad |
| RelayScreen.ComparisonPairsSpec | src/screens/relay/RelayScreen.tsx:280-313 | pairs exist iff some tier has two ratings; the latest two of the target tier come first, then the two before when there are four; both halves of a pair share a tier |
| RelayScreen.PairsExist | src/screens/relay/RelayScreen.tsx:298-312 | the pair list is empty exactly when there is no target tier |
| RelayScreen.GenerateComparisonPairs | src/screens/relay/RelayScreen.tsx:280-313 | the grouping and tier loops return exactly the specified pairs |
| RelayScreen.OutcomeSpec | src/screens/relay/RelayScreen.tsx:160-187 | every 30th rating opens the milestone dialog and suppresses the comparison; otherwise every 5th rating starts the comparisons exactly when some tier has two ratings; any other rating moves on |
| RelayScreen.DecideOutcome | src/screens/relay/RelayScreen.tsx:160-187 | the branches pick exactly the specified outcome |
| RelayScreen.FindIndex | src/screens/relay/RelayScreen.tsx:319-322 | findIndex returns the first rating with the shop id, or -1 when none has it |
| RelayScreen.MoveSpec | src/screens/relay/RelayScreen.tsx:324-328 | moving the winner from w to the loser's place l keeps the same ratings, leaves everything outside [l, w] alone and shifts [l, w) back by one |
| RelayScreen.ReorderedSpec | src/screens/relay/RelayScreen.tsx:316-331 | a comparison keeps the same ratings; the winner takes the loser's place when it was behind it, and nothing moves otherwise |
| RelayScreen.MovePermutes | src/screens/relay/RelayScreen.tsx:326-327 | the two splices permute the list |
| RelayScreen.MoveShape | src/screens/relay/RelayScreen.tsx:326-327 | the two splices give prefix, winner, the shifted span, then the rest |
| RelayScreen.FilterSeen | src/screens/relay/RelayScreen.tsx:86-94 | the kept shops are unseen before, come from the response and are distinct; every unseen shop of the response is kept; the seen set gains every shop of the response |
| RelayScreen.DedupeShops | src/screens/relay/RelayScreen.tsx:86-94 | the filter loop computes exactly the specified shops and seen set |
| RelayScreen.RelayScreenState.constructor | src/screens/relay/RelayScreen.tsx:33-67 | the initial state: no shops, loading, more expected, guide shown, no ratings, no comparison, offset 0 |
| RelayScreen.RelayScreenState.Swipe | src/screens/relay/RelayScreen.tsx:126-188 | a busy screen ignores the swipe; with a current card the rating is appended, the stats count it, the card starts exiting, the guide is dismissed and the outcome after the animation is returned; past the last card only the guide is dismissed; the cards, the index, the page state, the dialogs and comparison mode never change |
| RelayScreen.RelayScreenState.Skip | src/screens/relay/RelayScreen.tsx:190-210 | a busy screen ignores the skip; otherwise the skip is counted, the guide dismissed and the next card follows; ratings do not change |
| RelayScreen.RelayScreenState.MoveToNext | src/screens/relay/RelayScreen.tsx:212-234 | Advanced: past the end, load the next page (at the current offset) when there is more, else open the milestone dialog and stay; otherwise advance, loading exactly when within five cards of the end with more to come and no load running; ratings, cards, comparison state and the rest are unchanged |
| RelayScreen.RelayScreenState.Settle | src/screens/relay/RelayScreen.tsx:162-187 | after the animation the card stops exiting; the milestone dialog opens in place, or comparison mode starts on the pairs at index 0 in place, or the state advances exactly as MoveToNext does (Advanced); ratings and stats never change |
| RelayScreen.RelayScreenState.ExitComparisonMode | src/screens/relay/RelayScreen.tsx:352-357 | comparison mode ends with an empty queue and index 0; the ratings and every card and dialog field are unchanged |
| RelayScreen.RelayScreenState.ComparisonSelect | src/screens/relay/RelayScreen.tsx:315-340 | the ratings are reordered by the winner within the current pair; the next pair follows or comparison mode ends with an empty queue; every card and dialog field is unchanged |
| RelayScreen.RelayScreenState.ComparisonSkip | src/screens/relay/RelayScreen.tsx:342-350 | the ratings stay; the next pair follows or comparison mode ends with an empty queue; every card and dialog field is unchanged |
| RelayScreen.RelayScreenState.LoadShops | src/screens/relay/RelayScreen.tsx:69-114 | without a location an error is shown; otherwise unseen shops replace the list on page 0 or are appended, the offset moves on by the raw response length and has_more is taken from the response |
| RelayScreen.RelayScreenState.StartSession | src/screens/relay/RelayScreen.tsx:116-123 | a new session forgets the seen shops, resets the offset and loads page 0 |
| RelayScreen.RelayScreenState.Complete | src/screens/relay/RelayScreen.tsx:236-243 | without ratings the screen is left, otherwise the milestone dialog opens |
| RelayScreen.RelayScreenState.Back | src/screens/relay/RelayScreen.tsx:245-252 | with ratings a confirmation is asked, otherwise the screen is left |
| RelayScreen.RelayScreenState.ConfirmBack | src/screens/relay/RelayScreen.tsx:254-258 | the confirmation closes |
| RelayScreen.RelayScreenState.SaveAndNavigate | src/screens/relay/RelayScreen.tsx:260-270 | the milestone dialog closes and the ratings are handed on unsaved |
| RelayScreen.RelayScreenState.ContinueAfterMilestone | src/screens/relay/RelayScreen.tsx:272-277 | the milestone dialog closes and the next card follows as in moveToNext |
| RelayScreen.GroupByTier | src/screens/relay/RelayScreen.tsx:282-285 | each tier's list holds exactly that tier's ratings, in rating order |
| RelayScreen.PickTargetTier | src/screens/relay/RelayScreen.tsx:288-296 | the tier picked is the specified leader (good, ok, bad in turn; a strictly larger group of two or more replaces the current pick), and its list is that tier's group |
| ShopCategoryAdmin.CheckShopId | src/screens/admin/ShopCategoryAdmin.tsx:60-69 | an empty id is refused as missing, an id that radix-less parseInt (with its `0x` hexadecimal reading) cannot read as not numeric, and any other id is accepted as the number it reads |
| ShopCategoryAdmin.CheckShopIdRoundTrip | src/screens/admin/ShopCategoryAdmin.tsx:65-69 | every id typed as the decimal text of n is accepted as n |
| ShopCategoryAdmin.CheckShopIdNoDigit | src/screens/admin/ShopCategoryAdmin.tsx:65-69 | a non-empty id without any digit is refused as not numeric |
| ShopCategoryAdmin.CheckShopIdHex | src/screens/admin/ShopCategoryAdmin.tsx:65-69 | "0x1A" is accepted as shop 26 and "0x" is refused as not numeric |
| ShopCategoryAdmin.LimitOf | src/screens/admin/ShopCategoryAdmin.tsx:338 | `parseInt(value) \|\| 20` (no radix) is never 0 |
| ShopCategoryAdmin.LimitOfSpec | src/screens/admin/ShopCategoryAdmin.tsx:338 | the decimal text of a number other than 0 becomes the batch size; "0" and any text radix-less parseInt cannot read fall back to 20 |
| ShopCategoryAdmin.LimitOfHex | src/screens/admin/ShopCategoryAdmin.tsx:338 | "0x1A" gives a batch size of 26 |
| ShopCategoryAdmin.Updates | src/screens/admin/ShopCategoryAdmin.tsx:164-169 | every update sent belongs to a ticked row with a category, and every such row's update is sent |
| ShopCategoryAdmin.SuccessIds | src/screens/admin/ShopCategoryAdmin.tsx:147-151 | the ticked ids are exactly the ids of successful rows with a category |
| ShopCategoryAdmin.SelectAllSendsSuccesses | src/screens/admin/ShopCategoryAdmin.tsx:147-169 | after select-all, apply sends the update of every selectable row, and only for selectable ids |
| ShopCategoryAdmin.SelectionSends | src/screens/admin/ShopCategoryAdmin.tsx:162-174 | with only selectable ids ticked, there is something to send exactly when the selection is not empty |
| ShopCategoryAdmin.AppliedSpec | src/screens/admin/ShopCategoryAdmin.tsx:192-200 | only the chosen rows change, and only their old food kind, which becomes the new category |
| ShopCategoryAdmin.AppliedShowsUpdates | src/screens/admin/ShopCategoryAdmin.tsx:164-200 | every update sent shows afterwards: its shop's row has the new food kind as its old one |
| ShopCategoryAdmin.AppliedKeepsSelectable | src/screens/admin/ShopCategoryAdmin.tsx:192-200 | applying keeps the same rows selectable, and applying again changes nothing |
| ShopCategoryAdmin.NothingSelectedNothingSent | src/screens/admin/ShopCategoryAdmin.tsx:162-169 | with nothing ticked nothing is sent |
| ShopCategoryAdmin.FlipSpec | src/screens/admin/ShopCategoryAdmin.tsx:207-215 | toggling changes exactly the toggled id's membership, and toggling twice restores the set |
| ShopCategoryAdmin.AdminState.constructor | src/screens/admin/ShopCategoryAdmin.tsx:40-54 | the initial state: empty id, no results, batch size 20, generic only, nothing selected |
| ShopCategoryAdmin.AdminState.TypeShopId | src/screens/admin/ShopCategoryAdmin.tsx:254-255 | the field holds the typed text; nothing else changes |
| ShopCategoryAdmin.AdminState.TypeBatchLimit | src/screens/admin/ShopCategoryAdmin.tsx:338 | the batch size becomes LimitOf of the typed text (radix-less parseInt, 20 for NaN or 0), never 0; nothing else changes |
| ShopCategoryAdmin.AdminState.SetOnlyGeneric | src/screens/admin/ShopCategoryAdmin.tsx:347-348 | the checkbox sets the generic-only flag |
| ShopCategoryAdmin.AdminState.Scrape | src/screens/admin/ShopCategoryAdmin.tsx:57-92 | a missing id, or one radix-less parseInt cannot read, sets its error and sends nothing; otherwise the scrape request for the number read is sent and the result or the error message (with its fallback text) is shown |
| ShopCategoryAdmin.AdminState.ApplySingle | src/screens/admin/ShopCategoryAdmin.tsx:95-119 | without a result nothing happens; otherwise the PATCH is sent and on success the shown food kind becomes the new one with a success alert, on failure an alert with the error |
| ShopCategoryAdmin.AdminState.BatchScrape | src/screens/admin/ShopCategoryAdmin.tsx:122-158 | the batch request carries generic-only and the size; on success the result is shown and its selectable rows ticked, otherwise the error is shown and nothing is ticked |
| ShopCategoryAdmin.AdminState.ApplySelected | src/screens/admin/ShopCategoryAdmin.tsx:161-205 | no results or no selection does nothing; nothing to send alerts so; otherwise the updates are sent and on success the rows are marked applied, the count alerted and the selection cleared |
| ShopCategoryAdmin.AdminState.ToggleSelect | src/screens/admin/ShopCategoryAdmin.tsx:207-215 | the selection flips the id; ticking a selectable id keeps only selectable ids ticked |
| ShopCategoryAdmin.AdminState.SelectAll | src/screens/admin/ShopCategoryAdmin.tsx:217-225 | without results nothing changes; otherwise exactly the selectable ids are ticked |
| ShopCategoryAdmin.AdminState.DeselectAll | src/screens/admin/ShopCategoryAdmin.tsx:227-229 | the selection is emptied |
| ShopMatch.Deduped | src/screens/onboarding/ShopMatchConfirm.tsx:39-47 | the dedupe never grows the list |
| ShopMatch.DedupedSpec | src/screens/onboarding/ShopMatchConfirm.tsx:38-47 | the kept entries come from the input; every entry without a matched shop is kept; each matched shop id is kept exactly once; the seen set is exactly the set of kept shop ids |
| ShopMatch.DedupedFromInput | src/screens/onboarding/ShopMatchConfirm.tsx:41-47 | every kept entry comes from the input |
| ShopMatch.DedupedKeepsUnkeyed | src/screens/onboarding/ShopMatchConfirm.tsx:42-46 | every entry without a matched shop is kept |
| ShopMatch.SeenIsKeptIds | src/screens/onboarding/ShopMatchConfirm.tsx:42-45 | an id is seen exactly when a kept entry is matched to it |
| ShopMatch.AllKeyedSeen | src/screens/onboarding/ShopMatchConfirm.tsx:42-45 | every matched shop id of the input is seen |
| ShopMatch.KeptIdsUnique | src/screens/onboarding/ShopMatchConfirm.tsx:42-45 | no two kept matched entries share a shop id |
| ShopMatch.DedupedKeepsOrder | src/screens/onboarding/ShopMatchConfirm.tsx:41-47 | the entries kept from a prefix come first, in their order |
| ShopMatch.DedupeMatches | src/screens/onboarding/ShopMatchConfirm.tsx:39-47 | the for-of loop computes exactly the deduplicated list |
| ShopMatch.Remove | src/screens/onboarding/ShopMatchConfirm.tsx:67 | deleting an index removes exactly it and keeps the set free of repeats |
| ShopMatch.Add | src/screens/onboarding/ShopMatchConfirm.tsx:104 | adding an index adds exactly it and keeps the set free of repeats |
| ShopMatch.Toggle | src/screens/onboarding/ShopMatchConfirm.tsx:64-71 | toggling keeps the set free of repeats |
| ShopMatch.ToggleFlipsOne | src/screens/onboarding/ShopMatchConfirm.tsx:64-71 | toggling flips the membership of that one index, and toggling twice restores the members |
| ShopMatch.MatchedIndices | src/screens/onboarding/ShopMatchConfirm.tsx:51-55 | the auto-selection holds exactly the indices of matched entries, each once |
| ShopMatch.InitialSelection | src/screens/onboarding/ShopMatchConfirm.tsx:52-55 | the forEach computes exactly the matched indices |
| ShopMatch.ManualMatched | src/screens/onboarding/ShopMatchConfirm.tsx:90-103 | only the entry at the index changes, becoming matched with the chosen shop |
| ShopMatch.Confirmed | src/screens/onboarding/ShopMatchConfirm.tsx:110-123 | each confirmed shop is the shop of a selected entry, and every selected entry with a shop contributes it |
| ShopMatch.ConfirmedCount | src/screens/onboarding/ShopMatchConfirm.tsx:112-123 | confirm emits exactly one shop per selected index that holds a shop |
| ShopMatch.ShopMatchState.constructor | src/screens/onboarding/ShopMatchConfirm.tsx:18-24 | the initial state: no matches, nothing selected, loading, no search |
| ShopMatch.ShopMatchState.MatchShops | src/screens/onboarding/ShopMatchConfirm.tsx:34-62 | on an answer the matches become the deduplicated list with every matched entry selected; on an error nothing changes; loading ends either way |
| ShopMatch.ShopMatchState.ToggleSelect | src/screens/onboarding/ShopMatchConfirm.tsx:64-71 | the selection toggles the index; the matches are untouched |
| ShopMatch.ShopMatchState.HandleSearch | src/screens/onboarding/ShopMatchConfirm.tsx:73-88 | a blank query sends nothing; otherwise an ok reply replaces the search results |
| ShopMatch.ShopMatchState.HandleManualMatch | src/screens/onboarding/ShopMatchConfirm.tsx:90-108 | the entry becomes matched with the shop, its index is selected and the search is cleared |
| ShopMatch.ShopMatchState.HandleConfirm | src/screens/onboarding/ShopMatchConfirm.tsx:110-126 | the shops handed on are exactly the confirmed ones, in selection order |
| TasteTypeClient.Calculate | src/lib/tasteType.ts:46-89 | the client's calculateTasteType classifies every score vector exactly as the server's copy does, always with valid axis letters and an A or T subtype |
| TasteTypeClient.GetTasteType | src/lib/tasteType.ts:99-113 | no result gives null; a stored type is returned as is; otherwise scores give a valid calculated type; null exactly when there is neither type nor scores |
| TasteTypeClient.Description | src/lib/tasteType.ts:119-247 | the description is the five labels joined by single spaces, axis order first and subtype last; no label holds a space, so splitting gives the five labels back |
| TasteTypeClient.ProfileKeysAreBaseCodes | src/lib/tasteType.ts:145-210 | the profile table has exactly the 16 base codes as keys |
| TasteTypeClient.GetTasteTypeProfile | src/lib/tasteType.ts:219-229 | a profile is found exactly when the code, or the type's base code, is one of the 16 base codes |
| TasteTypeClient.ProfileLookups | src/lib/tasteType.ts:219-229 | every calculated type has a profile; a full code such as HASP-A has none |
| TasteTypeServer.Calculate | server/utils/tasteType.ts:59-102 | each axis letter is the high one exactly when its value is above 0 (missing scores count 0); the subtype is A exactly when the mean absolute score reaches 1.2; the codes are assembled from the letters; the stability is the mean rounded to hundredths |
| TasteTypeServer.AllTasteTypes | server/utils/tasteType.ts:109-132 | the five nested loops push exactly the 32 codes in order, intensity slowest and subtype fastest |
| TasteTypeServer.CodeAtIndexOf | server/utils/tasteType.ts:119-125 | the m-th code pushed is well formed and its letters give back m |
| TasteTypeServer.AllCodesComplete | server/utils/tasteType.ts:104-132 | getAllTasteTypes returns 32 different codes, and exactly the well-formed ones |
| TasteTypeServer.CalculateIsValid | server/utils/tasteType.ts:140-143 | every code calculateTasteType produces passes isValidTasteType |
| TasteTypeServer.IsValidTasteType | server/utils/tasteType.ts:140-143 | a code passes exactly when it is a well-formed code: one of H/L, D/A, U/S and F/P, a dash, then A or T |
| TasteTypeServer.ValidationExamples | server/utils/tasteType.test.ts:41-192 | HASP-A and LDUF-T are valid and XXXX-X, HASP and the empty string are not; the two sample score sets give HASP-A and LDUF-T |
| UserSelect.IndexOfId | src/screens/write/UserSelectModal.tsx:58 | the first position holding the id, or the length when none does |
| UserSelect.PutSpec | src/screens/write/UserSelectModal.tsx:58 | one Map.set keeps ids unique, makes the id present, keeps earlier ids in their places and replaces the user of a known id |
| UserSelect.DedupeUnique | src/screens/write/UserSelectModal.tsx:57-58 | the deduplicated list has each id once and is no longer than the input |
| UserSelect.DedupeKeepsIds | src/screens/write/UserSelectModal.tsx:57-58 | every id of the input is kept |
| UserSelect.DedupeKeepsLast | src/screens/write/UserSelectModal.tsx:58 | each user kept is the last input user with its id, as Map.set overwrites |
| UserSelect.DedupeKeepsOrder | src/screens/write/UserSelectModal.tsx:58 | ids keep the order in which they first appeared |
| UserSelect.ConnectionsSpec | src/screens/write/UserSelectModal.tsx:37-66 | everyone who follows or is followed appears exactly once; with neither request ok the list is empty |
| UserSelect.WithoutId | src/screens/write/UserSelectModal.tsx:70 | the filter removes every user with the id and keeps every other user |
| UserSelect.ToggleSpec | src/screens/write/UserSelectModal.tsx:68-75 | a selected user is removed; an unselected one is added last while fewer than ten are selected and ignored otherwise; a selection of at most ten stays at most ten |
| UserSelect.WithoutIdShorter | src/screens/write/UserSelectModal.tsx:70 | removing a present id shortens the selection |
| UserSelect.WithoutIdAbsent | src/screens/write/UserSelectModal.tsx:70 | removing an absent id changes nothing |
| UserSelect.ToggleTwice | src/screens/write/UserSelectModal.tsx:68-75 | toggling a user on and off again restores the selection |
| UserSelect.WithoutIdAppend | src/screens/write/UserSelectModal.tsx:70-73 | removing the user just appended gives back the earlier filter |
| UserSelect.Filtered | src/screens/write/UserSelectModal.tsx:82-85 | the shown users are exactly the connections whose ASCII-lowercased nickname or account id contains the ASCII-lowercased term |
| UserSelect.EmptyTermKeepsAll | src/screens/write/UserSelectModal.tsx:82-85 | the empty term shows the whole list |
| UserSelect.MatchIgnoresCase | src/screens/write/UserSelectModal.tsx:82-85 | a term and its ASCII upper-case form find the same users |
| Utils.CodeUnit | src/lib/utils.ts:9 | charCodeAt gives a UTF-16 code unit, the character itself within the basic plane |
| Utils.JsRem | src/lib/utils.ts:10 | the remainder truncates toward zero: it agrees with the modulus for a non-negative dividend and is never positive for a negative one |
| Utils.AppendJosa | src/lib/utils.ts:8-20 | the word is kept and exactly one particle character is appended |
| Utils.AppendJosaSpec | src/lib/utils.ts:8-20 | after a Hangul syllable the particle is the final-consonant form exactly when the syllable has a final consonant; after any character before the Hangul block the other form is used |
| Utils.FormatVisitDateSpec | src/lib/utils.ts:36-58 | today iff the day count is 0; days below 7 (future dates included, as negative counts); weeks below 30 days, months below 365 and years after; each count is the number of whole units elapsed |
| Utils.FormatVisitDate | src/lib/utils.ts:36-58 | NaN gives the "NaN years ago" label and only NaN does; week counts lie in 1..4, month counts in 1..12 and year counts are at least 1 |
| Utils.DiffDaysWholeDays | src/lib/utils.ts:30-34 | k whole days apart is a count of k, and the same moment is today |
| Text.ParseInt | server/utils/quiz.ts:78 | `parseInt(s, 10)` is NaN exactly when no digit follows the leading whitespace and optional sign |
| Text.ParseIntRoundTrip | server/utils/quiz.ts:78 | the decimal text of any integer reads back as that integer |
| Text.ParseIntNoRadix | server/routes/admin.ts:107 | `parseInt(s)` with no radix agrees with the decimal reading unless a `0x`/`0X` follows the sign; then it is NaN exactly when no hexadecimal digit follows, and otherwise the signed value of the hexadecimal digits |
| Text.ParseIntNoRadixRoundTrip | server/routes/admin.ts:107 | the decimal text of any integer reads back as that integer without a radix too |
| Text.ParseIntNoRadixHex | server/routes/admin.ts:107 | without a radix "0x1A" is 26 |
| Text.ParseIntNoRadixNegativeHex | server/routes/admin.ts:107 | without a radix "-0x1a" is −26 |
| Text.ParseIntNoRadixNaN | server/routes/admin.ts:107 | without a radix "0x" and "0xg" are NaN |
| Text.ParseIntDecimalStopsAtX | server/utils/quiz.ts:78 | with radix 10 "0x1A" is 0 |
| Text.Lower | server/routes/affiliation.ts:37 | `toLowerCase` keeps the length and maps each character on its own, ASCII capitals to small letters |
| Text.Utf16Length | server/services/FirecrawlService.ts:143 | `.length` counts one or two UTF-16 units per character, is zero only for the empty string, and equals the character count when every character is in the basic plane |
| Sorting.SortBy | server/routes/ranking.ts:143-146 | the stable sort keeps the length and is a permutation of its input |
| Sorting.SortBySorted | server/routes/ranking.ts:143-146 | with a total-preorder comparator the result is sorted |
| Sorting.SortBySortedIdentity | server/routes/ranking.ts:143-146 | an already sorted list is left exactly as it was |
| Sorting.InsertTies | server/routes/ranking.ts:143-146 | inserting an element puts it ahead of the elements it ties with and leaves their order alone |
| Sorting.SortByStable | server/routes/ranking.ts:143-146 | the sort is stable, as Array.prototype.sort is: for every x, the elements comparing equal to x appear in the same order before and after sorting |
| Sorting.SortByDistinct | server/services/FirecrawlService.ts:162 | sorting a list without repeated keys leaves it without repeated keys |
| Text.Trim | server/routes/affiliation.ts:77 | `trim()` never lengthens, leaves no white space at either end, and is empty exactly for blank text; TrimSlice gives the input as the result between a blank prefix and a blank suffix |
| Text.TrimSlice | server/routes/affiliation.ts:77 | `trim()` removes only white space and only at the ends: the input is a blank prefix, the result, and a blank suffix |
| Text.Split | server/utils/quiz.ts:75 | `split(sep)` gives one more part than there are separators, no part holds the separator, and joining the parts gives the text back |
| Text.SplitJoin | server/utils/quiz.ts:156 | joining one or more parts free of the separator and splitting again gives the parts back |
| Text.Digits | src/screens/register/PhoneStep.tsx:15 | `replace(/[^\d]/g, "")` keeps only digits, never lengthens, and keeps an all-digit text whole; DigitsAppend and DigitsSingle pin it down to exactly the input's digits in order |
| Text.DigitsAppend | src/screens/register/PhoneStep.tsx:15 | removing non-digits distributes over concatenation |
| Text.DigitsSingle | src/screens/register/PhoneStep.tsx:15 | a single character is kept exactly when it is a digit |
| Text.IntToString | server/utils/quiz.ts:156 | `String(n)` is non-empty: the digits of n for a non-negative n, and a minus sign followed by the digits of −n otherwise |
| Text.Upper | server/services/GeocodingService.ts:70 | `toUpperCase` keeps the length and maps each character on its own, ASCII small letters to capitals |

## Left out

- Network, database and file I/O: queries, HTTP requests and replies, `localStorage`, `fs` reads and writes are parameters or result fields. Transactions, retries and Redis cache invalidation are not modelled.
- Clocks, timers and randomness: "now", the 350 ms animation timeouts, `setInterval` ticks, generated verification codes, UUIDs and `ORDER BY RANDOM()` rows are parameters or explicit steps.
- Console output, alerts beyond their text, navigation, translation keys and all rendering are left out. Navigation is an outcome flag where a handler's only effect is to leave the screen.
- Floating point: JavaScript numbers are modelled as exact integers or reals. Math.round and the stability threshold are exact. The relay route's `distance_km` rounding and the great-circle SQL are left out, because shop rows carry only id and source.
- `JSON.parse`, `parseFloat` and `new Date(text)` are not modelled as parsers. Their parsed results (or None for NaN or a parse error) are inputs.
- Strings are sequences of code points. JavaScript's `.length` counts UTF-16 units, and the model writes that count out as `Text.Utf16Length` where the source compares a length with a bound or another length on arbitrary text: FirecrawlService's address and category tests and its longest-first sort. `Utils.CodeUnit` writes out `charCodeAt`. Elsewhere a length is only compared with zero or taken of text already filtered to digits or ASCII handle characters, where the two counts agree.
- Array.prototype.sort works in place in the source. The model sorts values, so aliasing of the sorted array is not modelled. The one place where it matters, FirecrawlService's `allCategories` being sorted as a side effect, is stated on the returned value.
- React state batching and stale closures: each handler reads the state as of its call. RankingOverlay's saveRank reads the candidate list captured by its closure, and the model uses the current field, which holds the same list at that point.
- server/scripts/distributeContent.ts: the random assignment of content to users is a parameter.
- server/scripts/import_content.ts: `main()` (lines 55-127) is dead streaming code and is not modelled. The content insert's `onConflictDoNothing` is not modelled: every record is appended.
- src/screens/profile/GroupRegistrationScreen.tsx: handleLeaveGroup and fetchStatus only relay a server reply to the screen and are not modelled.
- src/screens/onboarding/OnboardingRanking.tsx: drag-and-drop reordering is UI. Saving is proved for any arrangement of the flattened list.
- src/lib/utils.ts: `cn` (class-name merging) and `formatFullDateTime` (`toLocaleString`) are library formatting and are not modelled. `Utils.DiffDaysWholeDays` assumes 24-hour days between local midnights, which is not true across a daylight-saving change.
- server/routes/relay.ts: the response rows keep only id, source and score. Names, images and addresses are copied through unchanged and are left out.
- src/screens/relay/RelayScreen.tsx: a shop card is its id. The RelayShop object carried with each rating is left out.
- TasteTypeClient.Description requires valid axis letters, because for any other letter the source's label lookup throws a TypeError.
- RecalcRankings.ByKeyThenDateTotal: an unreadable visit date makes the source's comparator return NaN. The model has integer dates only.
- Case mapping: `Text.Lower` and `Text.Upper` map the ASCII letters only. JavaScript's `toLowerCase` and `toUpperCase` follow full Unicode: "İ" lower-cases to two characters, the Kelvin sign to "k", "É" to "é", "ß" upper-cases to "SS". The members below state their contracts for ASCII case mapping. Affiliation.SendGate and GateNeedsDomain, NeighborhoodClient.IsPoi and the country-code upper-casing of Geocoding.CodeOf and NeighborhoodClient share this limit.
- ExtractDomain: lower-cases the domain for ASCII letters only; a domain with non-ASCII capitals is compared differently from the source.
- ExtractDomainOf: the "lowercased" domain is ASCII-lowercased only.
- MatchGroup: compares allowed domains after ASCII-only lower-casing.
- FormatFoodKind: the first lookup uses ASCII-only lower-casing. Keys inherited from Object.prototype are not found; the source's `FOOD_KIND_MAP["constructor"]` returns a function.
- SentEmailNonEmpty: "never longer than typed" holds for ASCII lower-casing; the source's `toLowerCase` can lengthen a string ("İ").
- Sanitize: lower-cases ASCII only, so "İ" and the Kelvin sign are dropped where the source keeps "i" and "k".
- SanitizeSpec: "capitals become small letters" is stated for ASCII capitals.
- Filtered: matches case-insensitively for ASCII letters only; "é" does not find "Éric".
- MatchIgnoresCase: states the ASCII upper-case form of the term.
- Inherited object keys: a lookup `obj[key]` on a plain object literal also finds the names every object inherits from Object.prototype ("constructor", "toString", "__proto__", …). The model's maps hold only the literal's own keys. The members below are affected. The food-kind filter crash is listed under Findings.
- ExpandFoodKindFilter: an inherited name passes through like any unknown name; the source's spread of the inherited function throws a TypeError. The as-written behaviour is FoodKindExpand.ExpandAsWritten.
- ExpandUnknown: "not a category" includes inherited names, on which the source throws.
- UnmappedUnchanged: an inherited key such as "constructor" is found by the source's lookup and returns a function.
- SortKeyAsWritten: `order["constructor"]` is a function, so the source's comparator returns NaN, which the sort treats as equal; the model gives such a value key 2.
- SortKey: `SATISFACTION_MAP["constructor"] || 5` is a function, which makes the comparator NaN; the model gives key 5.
- StoredTier: for an inherited satisfaction name the source stores a function as the tier; the model stores the default 2.
- GetTasteTypeProfile: `TASTE_TYPE_PROFILES["constructor"]` is found by the source, which then reads `name[lang]` of a function; the model finds no profile.
- UpdateDb: `TRUNCATE TABLE ... CASCADE` (server/routes/admin.ts:81) also empties every table whose foreign key references the truncated one (server/db/schema.ts:125, 154, 170, 197, 198: comments on content; users_wantstogo, users_ranking and users_list_items rows of shops; list items naming content). The model has only the shops and content tables and leaves the referencing tables out.
- Batch: sorts the items with the comparator as written (see Findings), so the 'ok' items come first and every other item follows in input order. The intended good-ok-bad order is `RankingRoute.AfterBatchIntended`, with its properties in `RankingRoute.IntendedBatchSpec`.

## Findings

| source | as written | input that shows it | evidently intended | confidence | as-written member | corrected member |
|---|---|---|---|---|---|---|
| server/routes/ranking.ts:143-146 | the batch sort looks up `order[s] \|\| 2`, and 'good' has key 0, which is falsy, so 'good' items get key 2 and sort with 'bad', after 'ok' | `[BatchItem(10,"good"), BatchItem(20,"ok")]` ranks shop 20 first and shop 10 second | good before ok before bad | not executed | RankingRoute.GoodAfterOkAsWritten | RankingRoute.GoodBeforeOk |
| server/utils/foodKindMap.ts:112-124 | `FOOD_KIND_REVERSE_MAP[name]` also finds names inherited from Object.prototype; for "constructor" it is a function, which is truthy, and `push(...rawValues)` on it throws a TypeError | the filter `["constructor"]` | an unknown name passes through unchanged | not executed | FoodKindExpand.ConstructorFilterThrows | FoodKindExpand.ExpandUnknown |
