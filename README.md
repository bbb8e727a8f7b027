# Creator platform: a verified model of its client-side logic

The platform connects content creators, who say where they are travelling, with businesses
that want to host them. Everything it stores lives in a hosted database (`profiles`,
`creator_profile`, `business_profile`, `creator_travel_schedule`) and in file storage. The
logic that decides what is shown, searched, validated and written lives in the React
components. This project models that logic in Dafny and proves what the components promise.
It covers:

- the creator directory: the travel-window search, the two filter clauses, the per-creator
  schedule map and the schedule lists on each card (`creator_directory.dfy`);
- the business directory: slugs and their uniqueness probing, the Taiwan name override, the
  filter, the country list and the card formatters (`findwork.dfy`);
- the business list component: its join and the owner's delete (`business_container.dfy`);
- the travel schedule editor: its capped list and its delete-then-insert save
  (`travel_schedule_form.dfy`);
- the three forms: business (with its markdown toolbar), creator, and the profile page with its
  URL pattern (`business_form.dfy`, `creator_form.dfy`, `profile_page.dfy`);
- onboarding: the creator details form with its portfolio uploads, and the three-step wizard
  (`creator_profile_form.dfy`, `complete_profile_form.dfy`).

The model takes the form of the code:

- **Pure code.** Predicates, filters and formatters become functions with lemmas.
- **Component state.** Each component's state becomes a class whose fields are its `useState`
  values, and each handler becomes a method that changes those fields.
- **Loops.** The loops of the code (the filter `forEach`, the schedule grouping, the slug
  probe, the portfolio upload) are `for` and `while` loops with invariants.
- **Store results and failures.** These are parameters of the handlers (the rows a query
  returns, a flag for each error). The tables a handler writes are small classes
  (`ScheduleTable`, `BusinessTable`), or a list of the writes sent.

Shared pieces:

- `Seqs`: JavaScript's order-preserving `filter`, sublists, `splice` and `slice`.
- `Text`: `toLowerCase` on ASCII, `includes`, `trim`, `split`/`join`, and `${n}` for naturals.
- `Profiles`: the `profiles` row of `types.ts`, and `find` by id.

Conventions:

- **Instants.** These are integer millisecond timestamps, and "30 days" is the constant
  `30 * 86400000`.
- **Date texts of the schedule editor.** These are `YYYY-MM-DD` strings. Their `new Date`
  comparison is the lexicographic order, which agrees with the calendar order for that format.
- **Optional text columns.** A column the code only tests for truthiness is a `string`, with
  `""` for absent.

Three behaviours of the code worth noting; the model follows the code in each:

- **Orphaned rows.** Both directory components keep a row whose owner profile is missing in
  their loaded list, with no profile. Only the rendering skips it (`RenderedCreators`,
  `RenderedBusinesses`).
- **Conjoined filters.** The creator filter conjoins the query clause and the country clause,
  and each falls back to in-window schedules on its own. A creator whose own text matches the
  query is still dropped when neither the creator nor any in-window schedule is in the
  selected country (`OwnMatchStillNeedsCountry`).
- **Unequal windows.** A trip is displayed as long as it has not ended, but it can cause a
  match only from 30 days before its start (`FarTripDisplayedButNotMatched`).

## Model

| member | source | states |
|---|---|---|
| CreatorDirectory.WindowImpliesDisplayed | components/CreatorContainer.tsx:118-131 | a schedule inside the travel window (`IsWithinTravelWindow`: from 30 days before its start to its end, both inclusive) is also current or upcoming (`IsCurrentOrUpcoming`: its end not passed) |
| CreatorDirectory.FarTripDisplayedButNotMatched | components/CreatorContainer.tsx:279-283 | a trip starting more than 30 days from now is displayed (end not passed) but is outside the window, so it cannot cause a match |
| CreatorDirectory.UnlistedCreatorMatchesOnOwnFields | components/CreatorContainer.tsx:163-205 | a creator without an entry in the schedule map (`travelSchedules[id] \|\| []`, `SchedulesOf`) passes the query clause exactly when the query is empty or one of its own fields includes it, and the country clause exactly when the country is empty or its own |
| CreatorDirectory.MatchingIdsStep | components/CreatorContainer.tsx:157-213 | visiting one more creator adds its id to the set exactly when it satisfies both clauses (`QueryClause`: own fields or an in-window schedule include the query; `CountryClause`: own country or an in-window schedule in it) |
| CreatorDirectory.CollectMatchingIds | components/CreatorContainer.tsx:154-213 | the `forEach` loop, with its two flags, collects exactly the ids of the creators satisfying the query clause and the country clause |
| CreatorDirectory.SelectCreators | components/CreatorContainer.tsx:215-217 | the results are the loaded creators whose id was collected, in load order |
| CreatorDirectory.EmptyFiltersKeepAll | components/CreatorContainer.tsx:159-160 | with no query and no country every loaded creator is kept, in load order |
| CreatorDirectory.FilteredIsSublist | components/CreatorContainer.tsx:154 | the result of the filter (`FilteredCreators`) is an order-preserving sublist of the loaded list, and no row is repeated however many schedules match |
| CreatorDirectory.FilteredAreExactlyMatching | components/CreatorContainer.tsx:209-217 | with unique creator ids the result is exactly the order-preserving filter by both clauses, without duplicates |
| CreatorDirectory.OwnMatchStillNeedsCountry | components/CreatorContainer.tsx:163-205 | a creator whose own description matches the query is still dropped when the selected country matches neither it nor its schedules |
| CreatorDirectory.LandscapeQueryMatches | components/CreatorContainer.tsx:163-176 | a case-insensitive match in the description satisfies the query clause |
| CreatorDirectory.LandscapeDropped | components/CreatorContainer.tsx:190-217 | a creator in another country with no schedules fails the country clause and is filtered out |
| CreatorDirectory.FilteredPair | components/CreatorContainer.tsx:209-217 | for two creators with different ids, each is kept exactly when it satisfies both clauses, in load order |
| CreatorDirectory.ScenarioQueryA | components/CreatorContainer.tsx:163-176 | a description containing the query matches it, ignoring case |
| CreatorDirectory.ScenarioQueryB | components/CreatorContainer.tsx:163-189 | own fields and in-window schedules that all miss the query fail the query clause |
| CreatorDirectory.ShortFieldsDoNotMatch | components/CreatorContainer.tsx:134-145 | a query longer than every field of a creator and of a schedule matches neither |
| CreatorDirectory.ScenarioCountry | components/CreatorContainer.tsx:190-205 | the country clause holds on the creator's own country and, failing that, on an in-window schedule in that country |
| CreatorDirectory.BarcelonaScenario | components/CreatorContainer.tsx:154-217 | a query keeps only the creator it matches; a country keeps both the resident and the traveller |
| CreatorDirectory.BarcelonaQueryScenario | components/CreatorContainer.tsx:154-217 | the query "barcelona" keeps only the creator whose description mentions it |
| CreatorDirectory.SpainCountryScenario | components/CreatorContainer.tsx:154-217 | the country "Spain" keeps the resident and the creator with an in-window trip there, in load order |
| CreatorDirectory.JoinProfiles | components/CreatorContainer.tsx:87-95 | the join keeps the fetched length, order and fields; each row carries a profile with its `creator_id` as id, or none when no fetched profile has that id |
| CreatorDirectory.CreatorIds | components/CreatorContainer.tsx:79 | the ids queried are the rows' `creator_id`s, position by position |
| CreatorDirectory.GroupSchedules | components/CreatorContainer.tsx:237-251 | the push succeeds exactly when every fetched schedule's owner was requested; then every requested id maps to its schedules in fetched order |
| CreatorDirectory.GroupedFrom | components/CreatorContainer.tsx:237-251 | a map holding exactly the requested ids, each with its owned schedules, is the grouping |
| CreatorDirectory.EmptyLists | components/CreatorContainer.tsx:240-242 | every requested id starts with an empty list, and no other key is present |
| CreatorDirectory.PushKeepsGrouping | components/CreatorContainer.tsx:245-247 | one `push` onto the owner's list keeps the loop invariant: every list holds its owner's schedules fetched so far |
| CreatorDirectory.PushStep | components/CreatorContainer.tsx:245-247 | pushing the next schedule extends exactly its owner's list |
| CreatorDirectory.GroupedKeepsStartOrder | components/CreatorContainer.tsx:229-233 | schedules fetched in ascending `start_date` give every creator's list in ascending `start_date` |
| CreatorDirectory.HighlightedSchedules | components/CreatorContainer.tsx:286-320 | empty when both filters are empty; otherwise exactly the in-window schedules matching the query (`ScheduleMatchesSearch`) or the country (`ScheduleMatchesCountry`), in order (`MatchingSchedules` of the creator's list) |
| CreatorDirectory.UpcomingSchedules | components/CreatorContainer.tsx:407-409 | the first 3 current or upcoming schedules of the creator's list: an order-preserving sublist of it, as long as 3 or the number of upcoming schedules, whichever is less, holding every upcoming schedule that has fewer than 3 upcoming ones before it |
| CreatorDirectory.GenericSchedules | components/CreatorContainer.tsx:553-560 | exactly the card's upcoming schedules that share no id with a highlighted one, as an order-preserving sublist of them, so at most 3 and no schedule listed twice |
| CreatorDirectory.ScheduleMatchIsHighlighted | components/CreatorContainer.tsx:178-187 | when a schedule decides the query clause, the card highlights at least one schedule |
| CreatorDirectory.CountryMatchIsHighlighted | components/CreatorContainer.tsx:191-205 | when a schedule decides the country clause, the card highlights at least one schedule |
| CreatorDirectory.RenderedCreators | components/CreatorContainer.tsx:398-404 | cards are drawn exactly for the filtered creators whose owner profile was joined, in order |
| CreatorDirectory.CreatorContainer.FetchTravelSchedules | components/CreatorContainer.tsx:222-253 | no query for an empty id list; on a failed query or a push to an unrequested owner the map is unchanged; otherwise the map is the grouping |
| CreatorDirectory.CreatorContainer.FetchCreatorData | components/CreatorContainer.tsx:63-111 | loading ends; the error flag is raised by a failed row query or, for a non-empty result, a failed profile query, and otherwise keeps its old value; on such a failure both lists and the schedule map are kept; otherwise both lists become the join (empty for no rows) and the map is regrouped only for a non-empty join whose schedule query went through with requested owners only |
| CreatorDirectory.CreatorContainer.ApplyFilters | components/CreatorContainer.tsx:114-220 | skipped while nothing is loaded; otherwise the filtered list is recomputed by the two clauses |
| Findwork.StripSpecialIsFilter | app/findwork/page.tsx:47 | `replace(/[^\w ]+/g, '')` is the order-preserving filter by `[\w ]` (`StripSpecial`, `KeptBySlug`) |
| Findwork.StripSpecialChars | app/findwork/page.tsx:47 | the deletion keeps exactly the characters of `[\w ]` |
| Findwork.HyphenRun | app/findwork/page.tsx:48 | `replace(/ +/g, '-')` (`Hyphen`) turns a run of one or more spaces into a single `-`, or into nothing when the run continues one already replaced |
| Findwork.HyphenWord | app/findwork/page.tsx:48 | a piece without spaces passes through the replacement unchanged, ending any run |
| Findwork.HyphenWords | app/findwork/page.tsx:48 | non-empty words without spaces separated by runs of spaces come out joined by single hyphens |
| Findwork.HyphenSpacedWords | app/findwork/page.tsx:48 | with outer runs of spaces around such words, each outer run adds one hyphen at its end of the joined words |
| Findwork.HyphenLead | app/findwork/page.tsx:48 | a leading run of spaces becomes one `-`, and what follows is scanned as inside the run |
| Findwork.HyphenTrail | app/findwork/page.tsx:48 | a text of only spaces becomes `-`, or stays empty |
| Findwork.HyphenChars | app/findwork/page.tsx:48 | the replacement leaves no space, and every other character it outputs is `-` or comes from its input |
| Findwork.GenerateSlug | app/findwork/page.tsx:44-50 | every character of a slug is a lower-case ASCII letter, a digit, `_` or `-` |
| Findwork.SlugOfWords | app/findwork/page.tsx:44-50 | the slug of a name whose lowered, filtered form is words separated by runs of spaces, with optional outer runs, is the words joined by single hyphens, with a hyphen at each end that had spaces |
| Findwork.StrippedSlugChars | app/findwork/page.tsx:45-48 | after lowering and deletion only slug characters and spaces remain, and after the replacement no white space |
| Findwork.SlugTrimIsNoOp | app/findwork/page.tsx:49 | the final `trim` (`Trim`) removes nothing, so leading and trailing spaces survive as `-` |
| Findwork.HyphenKeepsNonSpaces | app/findwork/page.tsx:48 | on a text without `-`, deleting the hyphens of the output gives the input without spaces |
| Findwork.SlugWithoutHyphens | app/findwork/page.tsx:44-50 | a slug without its hyphens is the lowered, stripped name without spaces |
| Findwork.HyphenNoDoubleHyphen | app/findwork/page.tsx:48 | the replacement never outputs two hyphens in a row |
| Findwork.SlugHasNoDoubleHyphen | app/findwork/page.tsx:44-50 | a slug never holds two hyphens in a row |
| Findwork.FirstFree | app/findwork/page.tsx:195-217 | the stopping counter of the probe: every earlier candidate (`Candidate`: the base, then `${base}-${counter}`) is taken, and the candidate at it is free unless the limit of 100 was reached |
| Findwork.ProbeSlug | app/findwork/page.tsx:195-217 | the loop tries base, base-1, base-2, … and stops at the first free candidate or after 100 lookups, with `base-100` unchecked |
| Findwork.FirstFreeIsFirst | app/findwork/page.tsx:195-217 | a counter with every earlier candidate taken and its own candidate free is the stopping counter |
| Findwork.ExhaustedProbeMayCollide | app/findwork/page.tsx:199 | when `base` and `base-1` to `base-100` are all taken the probe stops at `base-100`, which another business holds |
| Findwork.ChosenSlug | app/findwork/page.tsx:186-222 | a new profile or a changed name gets the candidate at the first free counter (free whenever the limit was not reached); an unchanged name keeps the stored slug, or the base slug when none is stored |
| Findwork.ChooseSlug | app/findwork/page.tsx:186-222 | the slug step produces the chosen slug; it looks nothing up for an unchanged name, and otherwise makes one lookup per candidate tried, up to the first free one or the limit of 100 (`ProbeLookups`) |
| Findwork.ProbeLookups | app/findwork/page.tsx:195-217 | the probe makes between 1 and 100 lookups |
| Findwork.OriginalCountryName | app/findwork/page.tsx:53-60 | every name other than the shown "Taiwan" passes through unchanged |
| Findwork.CustomizedCountryName | app/findwork/page.tsx:63-69 | every name other than the listed Taiwan entry passes through unchanged |
| Findwork.OriginalOfCustomized | app/findwork/page.tsx:53-69 | mapping to the shown name and back restores x exactly when x is not "Taiwan" |
| Findwork.CustomizedOfOriginal | app/findwork/page.tsx:53-69 | mapping to the listed name and back restores y exactly when y is not "Taiwan, Province of China" |
| Findwork.ProcessCountries | app/findwork/page.tsx:116-122 | the rows keep their order and fields, with a present country replaced by its shown name |
| Findwork.FilterBusinesses | app/findwork/page.tsx:137-161 | exactly the businesses matching the query (`BusinessMatchesQuery`: ignoring case, over title, description and name) and the country (exactly), in order |
| Findwork.BusinessFilterIsOnePass | app/findwork/page.tsx:143-159 | the query pass followed by the country pass is one order-preserving pass by the conjunction |
| Findwork.BothPasses | app/findwork/page.tsx:143-159 | the two `filter` calls compose into one filter by both tests |
| Findwork.EmptyBusinessFiltersKeepAll | app/findwork/page.tsx:137-161 | with no query and no country every business is listed, in order |
| Findwork.InsertSorted | app/findwork/page.tsx:304-310 | inserting into a strictly sorted list keeps it strictly sorted and adds exactly the new value |
| Findwork.SortedCountries | app/findwork/page.tsx:304-310 | the offered countries are strictly sorted and are exactly the non-empty `business_country` values |
| Findwork.SortedIsDuplicateFree | app/findwork/page.tsx:304-310 | a strictly sorted list has no duplicates |
| Findwork.TruncateText | app/findwork/page.tsx:280-283 | the text when it fits; otherwise its first `maxLength` characters followed by "..." |
| Findwork.FormatLocation | app/findwork/page.tsx:286-295 | none exactly when city and country are both absent; otherwise both present parts appear, as "city, country" when both are present |
| Findwork.BusinessUrl | app/findwork/page.tsx:298-301 | `/findwork/` followed by the slug when it is non-empty, else by the id |
| Findwork.UrlDeterminesSlug | app/findwork/page.tsx:298-301 | two businesses with slugs share a URL exactly when they share the slug |
| Findwork.FindworkPage.FetchBusinessProfiles | app/findwork/page.tsx:104-134 | on success both lists become the fetched rows with shown country names; on failure they are kept, and loading ends either way |
| Findwork.FindworkPage.ApplyFilters | app/findwork/page.tsx:137-161 | skipped while nothing is loaded; otherwise the filtered list is the filter of the loaded list |
| Findwork.FindworkPage.SaveBusinessProfile | app/findwork/page.tsx:176-269 | nothing without a user; otherwise one upsert (`SavePayload`) with the chosen slug and the listed country name; on success the local profile carries the shown name and the modal closes |
| Findwork.StripSpecialAppend | app/findwork/page.tsx:47 | the deletion works piece by piece |
| Findwork.HyphenAppend | app/findwork/page.tsx:48 | the replacement works piece by piece, the second piece starting in the state the first leaves |
| Findwork.JoesCafeSlug | app/findwork/page.tsx:44-50 | "Joe's Café!!" becomes "joes-caf" |
| Findwork.SlugNotIdempotent | app/findwork/page.tsx:47-48 | "a b" gives "a-b", whose own `-` is deleted again, giving "ab" |
| Findwork.SlugKeepsOuterSpaces | app/findwork/page.tsx:47-49 | " a " gives "-a-": trimming runs after the replacement |
| TravelScheduleForm.ValidateSchedule | components/TravelScheduleForm.tsx:64-82 | the first failing check in the order location, start, end, start after end (`StartsAfter`); none exactly when the schedule is valid |
| TravelScheduleForm.SameDayAccepted | components/TravelScheduleForm.tsx:77 | a trip starting and ending on the same day is accepted |
| TravelScheduleForm.OneOrderRejected | components/TravelScheduleForm.tsx:77 | of two different dates exactly one order passes the date check |
| TravelScheduleForm.FormatDateForInput | components/TravelScheduleForm.tsx:145-147 | a prefix of the date without 'T', ending at the first 'T' or at the end of the text |
| TravelScheduleForm.FormatWithoutTime | components/TravelScheduleForm.tsx:145-147 | a date without 'T' is returned unchanged |
| TravelScheduleForm.FormatIdempotent | components/TravelScheduleForm.tsx:145-147 | formatting twice is formatting once |
| TravelScheduleForm.Stamp | components/TravelScheduleForm.tsx:123-126 | every schedule keeps its place and fields, with `creator_id` set |
| TravelScheduleForm.ReplacedOwnRows | components/TravelScheduleForm.tsx:114-132 | after the delete and the insert, the creator's stored rows are exactly the list, stamped, in order |
| TravelScheduleForm.ReplacedOtherRows | components/TravelScheduleForm.tsx:114-132 | the save leaves the other creators' rows as they were |
| TravelScheduleForm.DeletedOwnRows | components/TravelScheduleForm.tsx:115-138 | a delete that went through followed by a failed insert leaves the creator with no stored rows |
| TravelScheduleForm.TravelScheduleEditor.Load | components/TravelScheduleForm.tsx:36-56 | the list becomes the fetched rows, uncapped, or stays with a load error |
| TravelScheduleForm.TravelScheduleEditor.AddSchedule | components/TravelScheduleForm.tsx:84-95 | an invalid draft or a full list changes no entry; otherwise the draft is appended, the draft reset and the error cleared; adding never grows the list past 10 |
| TravelScheduleForm.TravelScheduleEditor.RemoveSchedule | components/TravelScheduleForm.tsx:97-101 | the list is `splice(index, 1)` of the old list; a valid index removes exactly one entry |
| TravelScheduleForm.TravelScheduleEditor.Submit | components/TravelScheduleForm.tsx:103-141 | an empty list sets an error and touches no table; a failed delete keeps the table; a failed insert leaves the creator's rows deleted; success stores the list and closes the form |
| BusinessForm.WithField | components/BusinessForm.tsx:31-39 | only the named field takes the new value; the others keep theirs |
| BusinessForm.Validate | components/BusinessForm.tsx:46-66 | the first failing check in the order name, address, description, length over 1000 in UTF-16 code units (`Utf16Length`); none exactly when all pass |
| BusinessForm.PrefixAll | components/BusinessForm.tsx:113-115 | every line gains the prefix `- `, in place |
| BusinessForm.InsertFormat | components/BusinessForm.tsx:81-122 | an unknown format leaves the description unchanged |
| BusinessForm.PrefixAllLength | components/BusinessForm.tsx:113-115 | prefixing adds two characters per line |
| BusinessForm.BulletsLength | components/BusinessForm.tsx:110-120 | a list grows the selection by two characters per line, the lines being one more than the newlines |
| BusinessForm.BulletsLines | components/BusinessForm.tsx:110-120 | a list (`Bullets`) keeps the line count and prefixes each line with `- ` |
| BusinessForm.MarkedLength | components/BusinessForm.tsx:92-120 | the marked selection (`Marked`) grows by 4 for bold, 2 for italic, 3 for a heading and 2 per line for a list |
| BusinessForm.FormatKeepsOutside | components/BusinessForm.tsx:93-119 | the text before `start` and after `end` is kept verbatim around the marked selection |
| BusinessForm.RestoredSelectionIsMarked | components/BusinessForm.tsx:133-136 | the restored selection end `end + (newLen - oldLen)` is the end of the marked selection |
| BusinessForm.BoldAddsFour | components/BusinessForm.tsx:92-96 | bold gives `prefix + "**" + sel + "**" + suffix`, and the selection end moves by 4 |
| BusinessForm.BusinessFormState.Change | components/BusinessForm.tsx:31-39 | `handleChange` changes only the named field |
| BusinessForm.BusinessFormState.Submit | components/BusinessForm.tsx:41-78 | a failing check sets its error and submits nothing; otherwise the values are passed on, the error reflects `onSubmit` failing, and submitting ends |
| BusinessForm.BusinessFormState.ApplyFormat | components/BusinessForm.tsx:81-137 | the description becomes the formatted text and the selection is restored from `start` to the moved end |
| CreatorForm.Validate | components/CreatorForm.tsx:50-68 | the first failing check in the order blank description, length over 1000 in UTF-16 code units (`Utf16Length`), no country, blank city; none exactly when all pass |
| CreatorForm.CreatorFormState.RefusedLengthIsWarned | components/CreatorForm.tsx:50-68 | on the form's state, a description the submit refuses as too long already shows the red counter, and a red counter within 1000 characters is not refused for length |
| CreatorForm.CreatorFormState.Submit | components/CreatorForm.tsx:46-80 | the error is cleared first; a failing check sets its error and submits nothing; otherwise exactly {description, country, city} is passed on and submitting ends |
| ProfilePage.LabelLength | app/profile/page.tsx:182-183 | the length of the leading run of `[\w-]` characters |
| ProfilePage.PathSuffix | app/profile/page.tsx:182-183 | the trailing `[/\w-]*` part, stated on the suffix or on its indices |
| ProfilePage.HostMatchesIff | app/profile/page.tsx:182-183 | the left-to-right recogniser (`HostMatches`, behind `UrlPatternMatches` with its optional protocol) accepts exactly the texts the pattern splits into label, '.', two or more letters and a path |
| ProfilePage.HostFromParts | app/profile/page.tsx:182-183 | a label, a dot, two letters and path characters make an accepted host part |
| ProfilePage.LabelPrefix | app/profile/page.tsx:182-183 | the label run stops at the first character outside `[\w-]` |
| ProfilePage.WithHttps | app/profile/page.tsx:182-183 | the `https://` protocol in front of an accepted host part is accepted |
| ProfilePage.AtSignRejected | app/profile/page.tsx:182-183 | a text with an `@` anywhere is rejected |
| ProfilePage.AtSignNotInHost | app/profile/page.tsx:182-183 | no accepted host part holds an `@` |
| ProfilePage.SecondDotRejected | app/profile/page.tsx:182-183 | an accepted host part holds exactly one dot |
| ProfilePage.SubdomainRejected | app/profile/page.tsx:182-183 | a host with a subdomain such as `www.` after `https://` is rejected |
| ProfilePage.TikTokPlaceholderRejected | app/profile/page.tsx:550 | the TikTok placeholder is rejected for its `@` |
| ProfilePage.YouTubePlaceholderAccepted | app/profile/page.tsx:533 | the YouTube placeholder is accepted |
| ProfilePage.InstagramPlaceholderAccepted | app/profile/page.tsx:516 | the Instagram placeholder is accepted |
| ProfilePage.ValidateUrls | app/profile/page.tsx:181-201 | Instagram, then YouTube, then TikTok, empty links skipped, first failure reported; none exactly when all three pass |
| ProfilePage.TikTokPlaceholderBlocksSave | app/profile/page.tsx:195-199 | typing the TikTok placeholder as shown blocks the save |
| ProfilePage.ExtensionWrite | app/profile/page.tsx:265-286 | an extension update is sent exactly when the user type is creator or business and that extension row was loaded |
| ProfilePage.ProfilePageState.AddLanguage | app/profile/page.tsx:170-175 | a non-empty language not yet listed is appended and the input cleared; otherwise nothing changes; the list stays duplicate-free |
| ProfilePage.ProfilePageState.RemoveLanguage | app/profile/page.tsx:177-179 | every equal entry goes and the rest keep their order |
| ProfilePage.ProfilePageState.Load | app/profile/page.tsx:80-150 | loading ends; a failed profile fetch sets the error and leaves every field as it was; otherwise the form fields are taken from the fetched row (the links only when present) and the type branch runs (`ExtensionLoaded`) |
| ProfilePage.ProfilePageState.LoadRow | app/profile/page.tsx:92-144 | the fetched row becomes the profile, username and languages, its links replace the old ones only when present, and the type branch runs |
| ProfilePage.ProfilePageState.LoadExtension | app/profile/page.tsx:103-144 | a creator loads its extension and travel flag and leaves the business copies alone; a business loads its extension and leaves the creator copy and the travel flag alone; any other type changes nothing and reports no error |
| ProfilePage.ProfilePageState.LoadCreator | app/profile/page.tsx:103-126 | a found creator row is taken over, no row (`PGRST116`) is no error; a failed extension or schedule query sets the error and keeps the travel flag, otherwise the flag says whether any schedule exists |
| ProfilePage.ProfilePageState.LoadBusiness | app/profile/page.tsx:127-143 | a found business row is taken over, and no row is no error |
| ProfilePage.ProfilePageState.Submit | app/profile/page.tsx:230-290 | failed URL checks set their error before any upload or write; otherwise the save runs |
| ProfilePage.ProfilePageState.Save | app/profile/page.tsx:203-320 | the upload, the profile update and the extension update are sent in order up to the first failure (`SaveWrites`); success, the error (the photo failure message after a failed upload, none after a clean success) and the local copies follow from what failed |
| ProfilePage.ProfilePageState.UpdateLocalCopies | app/profile/page.tsx:291-313 | the profile takes the edited values, and the loaded extension row takes the edited description (and name) |
| CreatorProfileForm.Suggestions | components/auth/CreatorProfileForm.tsx:52-56 | exactly the options not chosen whose lower-case form contains the lower-case input, in declared order |
| CreatorProfileForm.EmptyInputSuggestsUnchosen | components/auth/CreatorProfileForm.tsx:52-56 | with nothing typed every option not chosen is suggested, in order |
| CreatorProfileForm.ChosenNotSuggested | components/auth/CreatorProfileForm.tsx:52-56 | a chosen language is never suggested, whatever is typed |
| CreatorProfileForm.FileExtension | components/auth/CreatorProfileForm.tsx:159 | the text after the last '.', or the whole name when there is none |
| CreatorProfileForm.ExtensionOfPlainName | components/auth/CreatorProfileForm.tsx:159 | a name without '.' is its own extension |
| CreatorProfileForm.PortfolioNamesDistinct | components/auth/CreatorProfileForm.tsx:160 | items at different positions are uploaded under different names (`PortfolioFileName`) |
| CreatorProfileForm.DigitsBeforeDot | components/auth/CreatorProfileForm.tsx:160 | a run of digits followed by '.' is read back unambiguously |
| CreatorProfileForm.PortfolioNameInUserFolder | components/auth/CreatorProfileForm.tsx:160 | every portfolio file lies in the user's folder |
| CreatorProfileForm.OrUndefinedRoundTrip | components/auth/CreatorProfileForm.tsx:180-184 | `value \|\| undefined` (`OrUndefined`) read back with empty for undefined restores the value |
| CreatorProfileForm.UploadPortfolio | components/auth/CreatorProfileForm.tsx:156-177 | the loop uploads item i to `${userId}/portfolio-${i}.${ext}`; it succeeds exactly when storage takes every item, and the URLs are then in item order |
| CreatorProfileForm.UploadEach | components/auth/CreatorProfileForm.tsx:157-177 | the upload loop stops at the first rejected upload; it succeeds exactly when storage takes every upload, and then URL k is the public URL of upload k |
| CreatorProfileForm.PortfolioUrlOfItem | components/auth/CreatorProfileForm.tsx:159-176 | URL i of a finished portfolio upload is the public URL of `${userId}/portfolio-${i}.${ext}` in the `portfolio-items` bucket |
| CreatorProfileForm.CreatorProfileFormState.AddLanguage | components/auth/CreatorProfileForm.tsx:58-63 | appended only when absent; the input is cleared either way; the list stays duplicate-free |
| CreatorProfileForm.CreatorProfileFormState.RemoveLanguage | components/auth/CreatorProfileForm.tsx:65-67 | the language goes, and the rest keep their order |
| CreatorProfileForm.CreatorProfileFormState.ChoosePhoto | components/auth/CreatorProfileForm.tsx:69-75 | the first picked file becomes the photo; nothing changes when none is picked |
| CreatorProfileForm.CreatorProfileFormState.AddPortfolioItems | components/auth/CreatorProfileForm.tsx:77-93 | items and previews become `(old ++ new)` truncated to 8; the old items stay a prefix; a full list is unchanged; equal lengths stay equal |
| CreatorProfileForm.CreatorProfileFormState.RemovePortfolioItem | components/auth/CreatorProfileForm.tsx:95-103 | items drop position `index` and previews are `splice(index, 1)`; for a valid index both lose the same entry and stay of equal length |
| CreatorProfileForm.CreatorProfileFormState.PayloadRoundTrip | components/auth/CreatorProfileForm.tsx:180-194 | the object passed on (`Payload`) carries each link and the portfolio URL as typed, read back with empty for undefined, and the location, languages, photo URL, portfolio URLs and the creator type as they are |
| CreatorProfileForm.CreatorProfileFormState.Submit | components/auth/CreatorProfileForm.tsx:115-201 | no session is an error; a refused photo (`ProfilePhotoFileName`) or portfolio upload is an error and nothing is completed; otherwise one object with the uploaded URLs and normalised links is passed on |
| CompleteProfileForm.Available | components/auth/CompleteProfileForm.tsx:53-77 | false for a length under 3 UTF-16 code units, false on a lookup error, otherwise true exactly when no row holds the name |
| CompleteProfileForm.UsernameGuard | components/auth/CompleteProfileForm.tsx:105-120 | the first failing guard in the order length (in UTF-16 code units), availability, session; none exactly when all pass |
| CompleteProfileForm.AstralNameLongEnough | components/auth/CompleteProfileForm.tsx:105 | two characters above U+FFFF make a name of length 4, which passes the length guard, while "ab" does not |
| CompleteProfileForm.EnabledContinueAdvances | components/auth/CompleteProfileForm.tsx:215-219 | an enabled Continue button (not `ContinueDisabled`) passes the length and availability guards |
| CompleteProfileForm.TakenNameRefused | components/auth/CompleteProfileForm.tsx:53-77 | a name the store holds never passes the guards |
| CompleteProfileForm.CompletionPayload | components/auth/CompleteProfileForm.tsx:138-146 | the data merged with username, `user_type`, `is_profile_complete` = true and `updated_at`, which override same-named keys; every other key is kept |
| CompleteProfileForm.WizardState.CheckUsernameAvailability | components/auth/CompleteProfileForm.tsx:53-77 | the answer is `Available`; a lookup, made for a length of 3 UTF-16 code units or more, raises the checking flag and lowers it afterwards |
| CompleteProfileForm.WizardState.UsernameChange | components/auth/CompleteProfileForm.tsx:79-100 | the pending check is cancelled; a name of length 3 or more (UTF-16 code units) schedules a check of itself; a shorter one resets availability to true and schedules none |
| CompleteProfileForm.WizardState.TimerFires | components/auth/CompleteProfileForm.tsx:93-96 | the scheduled name is checked, its answer shown and the pending check cleared; the checking flag is lowered after a lookup of a name of 3 or more characters and otherwise left as it was; with nothing scheduled nothing changes |
| CompleteProfileForm.WizardState.UsernameSubmit | components/auth/CompleteProfileForm.tsx:102-123 | a failing guard sets its error and stays on the username step; otherwise the wizard moves to the user-type step, never backwards |
| CompleteProfileForm.WizardState.UserTypeSubmit | components/auth/CompleteProfileForm.tsx:125-128 | the chosen type is stored and the wizard moves to the details step |
| CompleteProfileForm.WizardState.ProfileComplete | components/auth/CompleteProfileForm.tsx:130-158 | no session is an error; otherwise one update with the merged payload is sent, and success leaves the page |
| BusinessContainer.BusinessIds | components/BusinessContainer.tsx:62-64 | the ids queried are the rows' `business_id`s, position by position |
| BusinessContainer.JoinBusinesses | components/BusinessContainer.tsx:73-81 | the join keeps the fetched length, order and fields; each row carries a profile whose id is its `business_id`, or none when no fetched profile has that id |
| BusinessContainer.DeleteCommutesWithJoin | components/BusinessContainer.tsx:97-110 | dropping an owner's rows from the joined list gives the list a fresh load builds once the store has dropped them |
| BusinessContainer.RenderedBusinesses | components/BusinessContainer.tsx:160-162 | cards are drawn exactly for the rows whose owner profile was joined, in order |
| BusinessContainer.NoControlsSignedOut | components/BusinessContainer.tsx:235 | a signed-out visitor sees no owner controls (`ShowsOwnerControls`: the signed-in user owns the card) |
| BusinessContainer.NoControlsAfterDelete | components/BusinessContainer.tsx:235 | after the owner's delete no remaining card shows them owner controls |
| BusinessContainer.BusinessContainerState.FetchBusinessProfiles | components/BusinessContainer.tsx:46-91 | an empty fetch gives an empty list and sends no second query; otherwise one query for the owners' ids, and the list becomes the join; an error of either query sets the error |
| BusinessContainer.BusinessContainerState.DeleteBusinessProfile | components/BusinessContainer.tsx:96-115 | a no-op without a user; on success the table and the list lose exactly the user's rows, the rest in order; on failure the error is set and nothing else changes |
| Profiles.FindProfile | components/BusinessContainer.tsx:74-76 | a found profile is in the list with the sought id; none exactly when no profile has that id |
| Text.IncludesIff | components/CreatorContainer.tsx:166-174 | `includes` holds exactly when the query occurs at some index |
| Text.ToLower | components/CreatorContainer.tsx:166-174 | `toLowerCase` on ASCII (`Lower`): the same length, each upper-case letter moved down by 32, every other character kept |
| Text.Utf16Length | components/CreatorForm.tsx:55 | `.length` counts UTF-16 code units: between the number of characters and twice it, and equal to it when no character is above U+FFFF |
| Text.AstralCountsTwo | components/CreatorForm.tsx:55 | a character above U+FFFF has length 2, as do two ASCII letters |
| Text.BlankIffTrimmedEmpty | components/CreatorForm.tsx:50 | `!s.trim()` holds exactly when every character is white space |
| Text.TrimStart | components/CreatorForm.tsx:50 | the leading half of `trim` (`Trim`): a suffix of the text that starts with no white space, all it cut being white space |
| Text.TrimEnd | components/CreatorForm.tsx:50 | the trailing half of `trim`: a prefix of the text that ends with no white space, all it cut being white space |
| Text.Substring | components/BusinessForm.tsx:87-119 | `substring(a, b)` within bounds is the slice from a to b, and never longer than the text |
| Text.JoinSplit | components/BusinessForm.tsx:112-115 | joining the pieces of a split restores the text |
| Text.SplitJoin | components/BusinessForm.tsx:112-115 | splitting a join of separator-free pieces gives the pieces back |
| Text.SplitCount | components/BusinessForm.tsx:112-113 | a text with n separators splits into n + 1 pieces |
| Text.Split | components/BusinessForm.tsx:112-113 | `split(sep)` gives at least one piece, and no piece holds the separator |
| Text.SplitLast | components/auth/CreatorProfileForm.tsx:159 | the last piece of a split is the end of the text, after the last separator or all of it |
| Text.NatToStringInjective | components/auth/CreatorProfileForm.tsx:160 | different indexes render as different decimal texts |
| Text.NatToString | components/auth/CreatorProfileForm.tsx:160 | `${i}` is a non-empty run of decimal digits, starting with 0 only for 0 |
| Text.LexTransitive | app/findwork/page.tsx:310 | the default `sort` order on strings is transitive |
| Text.LexTotal | app/findwork/page.tsx:310 | two different strings are ordered one way or the other |
| Seqs.FilterIsSubsequence | components/CreatorContainer.tsx:215-217 | a `filter` result is a sublist of its input, in order |
| Seqs.Filter | components/CreatorContainer.tsx:215-217 | `filter` keeps exactly the elements satisfying the test, never more often than they occur, and is no longer than its input |
| Seqs.TakeFilter | components/CreatorContainer.tsx:407-409 | the first n elements passing a filter are a sublist of the input, holding every passing element with fewer than n passing ones before it |
| Seqs.FilterPosition | components/CreatorContainer.tsx:407-409 | a passing element sits in the filter at the count of passing elements before it |
| Seqs.PrefixIsSubsequence | components/CreatorContainer.tsx:407-409 | a prefix of a sublist is a sublist |
| Seqs.FilterTwice | app/findwork/page.tsx:143-159 | two successive filters are one filter by the conjunction |
| Seqs.SpliceOutAt | components/TravelScheduleForm.tsx:97-101 | `splice(i, 1)` at a valid index deletes exactly element i, and the others keep their order |
| Seqs.SpliceOutFromEnd | components/TravelScheduleForm.tsx:99 | a negative index counts from the end |
| Seqs.SpliceOut | components/TravelScheduleForm.tsx:97-101 | `splice(index, 1)` on a copy keeps the list for an index past its end and otherwise removes one element of a non-empty list |
| Seqs.WithoutIndex | components/auth/CreatorProfileForm.tsx:95-103 | the filter by position keeps the list for an index out of range and otherwise removes exactly the element at it |
| Seqs.WithoutIndexIsSpliceOut | components/auth/CreatorProfileForm.tsx:95-103 | within bounds the filter by position and `splice` remove the same element; a negative index removes nothing from the items but one preview |
| Seqs.Take | components/auth/CreatorProfileForm.tsx:84 | `slice(0, n)` is the longest prefix of at most n elements |

## Left out

- **Store and storage calls.** They are foreign I/O. Their answers and failures are
  parameters, and the tables are small classes or a list of the writes sent. Error messages
  are constants of an error datatype, not the texts shown.
- **Auth and routing.** Sessions, redirects and the page wiring of `app/creators/page.tsx` are
  not part of this model. The signed-in user is a parameter (`Option<string>`).
- **Timers.** The username debounce is reduced to the name the pending timer will check
  (`pendingCheck`, `TimerFires`). An answer that arrives after a newer keystroke is not
  modelled: only the latest scheduled check is.
- **Locale date formatting.** `formatDate` and `formatDateRange` depend on `Intl`.
- **Date parsing.** `new Date(...)` parsing, time zones and DST are not modelled.
- **Unicode case mapping.** `toLowerCase` and `\w` are ASCII only.
- **Sort order.** `sort()` compares UTF-16 code units. The model compares characters, which
  agrees below U+10000.
- **Browser APIs.** The textarea reference being null, the focus `setTimeout`,
  `URL.createObjectURL` and `revokeObjectURL` are not modelled. Previews are the strings the
  caller supplies.
- **The country-list library.** `getNames` and `overwrite` in components/CreatorForm.tsx are
  not modelled. The listed names are plain strings.
- **The profile page's photo name.** It includes `Date.now()`. The uploaded URL is a parameter
  (`uploaded`), with `None` for a failed upload.
- **Slug lookup errors.** An error from a slug lookup aborts the save in the code. The model
  treats lookups as never failing, with `taken` being the set of other businesses' slugs.
- **Inherited names in the two override lookups.** `reverseOverrides` and
  `countryNameOverrides` (app/findwork/page.tsx:55-68) are object literals, and
  `overrides[name] || name` also finds the members every object inherits from
  `Object.prototype`. These are `constructor`, `toString`, `toLocaleString`, `valueOf`,
  `hasOwnProperty`, `isPrototypeOf`, `propertyIsEnumerable`, `__proto__` and the
  `__defineGetter__` family. For such a name both lookups return that inherited function or
  object instead of a string. The model maps every name but the one override to itself, so
  `OriginalCountryName`, `CustomizedCountryName` and the round trips `OriginalOfCustomized` and
  `CustomizedOfOriginal` describe the code only for names that are not inherited members.
- **Undefined members.** Members set to `undefined` are left out of the payload by the JSON
  encoding. The model keeps them as `None`. An empty `portfolio_url` is sent as `null`
  (components/auth/CreatorProfileForm.tsx:188), which the model also writes as `None`.
- **Presentation.** The loading, error and empty-list screens of the components, modals and
  navigation are not modelled.
- **Row order.** Store query order is taken as given: the rows passed in are in the order
  the query requests.
- Findwork.StripSpecial: its own contract bounds only the length. The deletion itself is
  stated by `StripSpecialIsFilter` (a filter by `[\w ]`) and `StripSpecialChars`. The
  equation is kept off the function because the lemmas about literal names unfold it.
- Findwork.Hyphen: its own contract bounds only the length. The replacement is stated by
  `HyphenRun`, `HyphenWord`, `HyphenWords`, `HyphenSpacedWords`, `HyphenLead`, `HyphenTrail`,
  `HyphenChars` and `HyphenNoDoubleHyphen`.
- Findwork.GenerateSlug: its own contract states the character class. Its value is stated by
  `SlugOfWords` for names that filter to words, and by `SlugTrimIsNoOp` with `HyphenTrail` for
  names that filter to spaces only.
- Findwork.TruncateText: `text.length` and `substring(0, maxLength)` count UTF-16 code units,
  and the cut can split a surrogate pair, which a string of characters cannot hold. The model
  counts and cuts characters, which agrees when no character is above U+FFFF.
- BusinessForm.InsertFormat: the selection offsets `selectionStart` and `selectionEnd`, the
  `substring` calls and the restored end are UTF-16 offsets. `InsertFormat`, `RestoredEnd`,
  `ApplyFormat`, `FormatKeepsOutside`, `RestoredSelectionIsMarked` and `Text.Substring` take
  them as character offsets, which agree when no character before them is above U+FFFF. The
  length limits and the red counter do count UTF-16 code units (`Utf16Length`).
- CreatorProfileForm.CreatorProfileFormState.RemovePortfolioItem: for a negative index the
  items are kept while `splice` removes a preview, so the two lists fall out of step. The
  contract states both results (`WithoutIndexIsSpliceOut`). The equal-length promise is made
  only for a valid index, which is the only kind the remove buttons pass.
- CompleteProfileForm.WizardState.CheckUsernameAvailability: a name shorter than 3 characters
  leaves the checking flag as it was. After typing such a name the flag can stay raised; the
  model states this rather than the flag being lowered.
