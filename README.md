# MumbaiRentals lead site: a Dafny model of its core

MumbaiRentals is a single-page rental-request site for Mumbai's western
suburbs (Malad, Kandivali and Borivali, each on its West and East side). A
visitor's preferences (area, locality, bhk, budget in thousands of rupees,
furnishing, move-in, profile, name, phone and notes) collect in one shared
**lead draft**. Every surface of the site reads that draft and merges
patches into it:

- the hero and the URL prefill, which reads a draft out of a page's query parameters;
- the chatbot, whose engine extracts preferences from free text and routes each message to a fixed reply;
- the two three-step lead forms;
- the share widgets, which write the draft back into a link;
- the WhatsApp button and the sticky call-to-action bar, which turn the draft into a message.

A small local event log feeds the "live activity" ticker.

The model has one Dafny module per source file:

- Pure code becomes datatypes, functions and lemmas.
- Components whose state changes step by step become classes. Their fields are what the component keeps in its state, and their methods are the handlers. This covers the draft store, the chat panel, both forms, the typeahead, the call-to-action bar, the event log and the ticker.
- `Wrappers` holds the Option and Result types.
- `Strings` models the JavaScript string operations the code relies on: `trim`, `includes`, `slice`, `String(n)` and `find`, with characters as code points, and case mapping for ASCII letters only. The gaps this leaves are listed under "Left out".
- Regular expressions are modelled by hand as the leftmost match a backtracking engine finds.

Two findings are recorded below. In each case the code as written is modelled
and its defect exhibited, and the corrected definition is the one the rest of
the model uses.

## Model

| member | source | states |
|---|---|---|
| Strings.LowerChar | src/lib/urlPrefill.ts:8 | an upper-case ASCII letter becomes a lower-case one and every other character is kept |
| Strings.Lower | src/lib/urlPrefill.ts:8 | lower-casing keeps the length and leaves no upper-case ASCII letter; each character is mapped by itself (ASCII only, see Left out) |
| Strings.LowerAppend | src/lib/urlPrefill.ts:8 | lower-casing distributes over concatenation |
| Strings.LowerIdentity | src/lib/urlPrefill.ts:8 | a text without upper-case letters is its own lower-case form |
| Strings.TrimStart | src/bot/engine.ts:122 | the text without leading whitespace is a suffix of it starting with no whitespace |
| Strings.TrimStartDropsSpace | src/bot/engine.ts:122 | everything dropped from the front is whitespace |
| Strings.TrimEnd | src/lib/urlPrefill.ts:8 | the text without trailing whitespace is a prefix of it ending with no whitespace |
| Strings.TrimEndDropsSpace | src/lib/urlPrefill.ts:8 | everything dropped from the end is whitespace |
| Strings.Trim | src/lib/urlPrefill.ts:8 | the trimmed text is no longer than the input and has no whitespace at either end |
| Strings.TrimIdentity | src/lib/urlPrefill.ts:8 | a text with no whitespace at either end is its own trimmed form |
| Strings.TrimSlice | src/lib/urlPrefill.ts:8 | the trimmed text is a contiguous slice of the input |
| Strings.TrimIdempotent | src/lib/urlPrefill.ts:8 | trimming twice is trimming once |
| Strings.TrimEmptyIff | src/lib/urlPrefill.ts:12-13 | a text trims to nothing exactly when all of it is whitespace |
| Strings.ContainsAt | src/bot/engine.ts:12-14 | a needle occurring at some position is contained |
| Strings.ContainsWitness | src/bot/engine.ts:12-14 | a contained needle occurs at some position |
| Strings.ContainsIff | src/bot/engine.ts:12-14 | `includes` holds exactly when the needle occurs at some position |
| Strings.ContainsTransitive | src/bot/engine.ts:12-14 | a text containing a text that contains the needle contains the needle |
| Strings.ContainsParts | src/bot/engine.ts:12-14 | a concatenation contains both its parts |
| Strings.HasAnyVia | src/bot/engine.ts:12-14 | a text containing a part that contains one of the needles has any of them |
| Strings.FirstFrom | src/bot/engine.ts:52 | the leftmost position from a start at which a pattern matches, none exactly when it matches nowhere |
| Strings.SkipSpaces | src/bot/engine.ts:98 | a whitespace run, `\s*`, ends at the first non-whitespace character |
| Strings.SkipDigits | src/bot/engine.ts:98 | a digit run, `\d+`, ends at the first non-digit |
| Strings.DigitChar | src/lib/urlPrefill.ts:102 | a digit value is written as the digit that reads back as it |
| Strings.NatToString | src/lib/urlPrefill.ts:102 | `String(n)` of a whole number is non-empty, all digits, with no leading zero |
| Strings.NatToStringRoundTrip | src/lib/urlPrefill.ts:102 | reading back the digits of a whole number gives the number |
| Strings.IntToString | src/lib/urlPrefill.ts:102 | `String(n)` of an integer is its digits, with a minus sign first for a negative one |
| Strings.Take | src/components/LocalityTypeahead.tsx:33-39 | `slice(0, n)` keeps the first n elements, or all of a shorter sequence |
| Strings.ReplaceChar | src/lib/urlPrefill.ts:13 | replacing one character by another keeps the length |
| Strings.ReplaceAbsent | src/lib/urlPrefill.ts:13 | replacing a character that does not occur changes nothing |
| Strings.Find | src/lib/urlPrefill.ts:15 | `find` returns the first element that satisfies the test, none exactly when no element does |
| Strings.UpperChar | src/lib/urlPrefill.ts:20 | a lower-case ASCII letter becomes upper-case, any other character is kept, and lower-casing cannot tell the two apart (ASCII only, see Left out) |
| Strings.TrimStartSpaceAt | src/bot/engine.ts:122 | each character `trimStart` drops is whitespace |
| Utils.OnlyDigits | src/lib/utils.ts:8-10 | the result holds only decimal digits, is no longer than the input, and a text of digits is returned unchanged |
| Utils.OnlyDigitsAppend | src/lib/utils.ts:8-10 | the filter distributes over concatenation, so the digits keep their original order |
| Utils.OnlyDigitsCounts | src/lib/utils.ts:8-10 | every digit occurs in the result exactly as often as in the input, and no other character occurs |
| Utils.OnlyDigitsIdempotent | src/lib/utils.ts:8-10 | filtering twice gives the same text as filtering once |
| Utils.OnlyDigitsNone | src/lib/utils.ts:8-10 | a text without digits filters to the empty string |
| Utils.WaRecipient | src/components/WhatsAppFab.tsx:25-26 | a phone that filters to exactly ten digits is messaged as "91" plus those digits; any other phone falls back to the business number |
| Utils.WaRecipientShape | src/components/WhatsAppFab.tsx:7-26 | every recipient is twelve digits beginning with the country code 91 |
| Utils.BusinessNumberShape | src/components/WhatsAppFab.tsx:7 | the business number is twelve digits beginning with 91 |
| LeadDraft.AreasComplete | src/state/leadDraft.tsx:3-9 | each of the six suburb and side pairs is one of the listed areas |
| LeadDraft.AreaNameInjective | src/state/leadDraft.tsx:3-9 | two areas with the same display name are the same area |
| LeadDraft.AreaFromName | src/state/leadDraft.tsx:3-9 | the area parsed from a text is exactly the area whose display name is that text, and none when no area has it |
| LeadDraft.BhkFromCode | src/state/leadDraft.tsx:11 | the bhk parsed from a code is exactly the bhk with that code |
| LeadDraft.FurnishingFromCode | src/state/leadDraft.tsx:12 | the furnishing parsed from a code is exactly the furnishing with that code |
| LeadDraft.MoveInFromCode | src/state/leadDraft.tsx:13 | the move-in parsed from a code is exactly the move-in with that code |
| LeadDraft.ProfileFromCode | src/state/leadDraft.tsx:14 | the profile parsed from a code is exactly the profile with that code |
| LeadDraft.Extensionality | src/state/leadDraft.tsx:16-36 | two drafts that agree on every key are equal |
| LeadDraft.EmptyPatchHasNoKeys | src/state/leadDraft.tsx:40 | the empty patch sets no key |
| LeadDraft.DefaultDraftShape | src/state/leadDraft.tsx:46-56 | the default draft has an ordered budget, an empty locality and empty notes, and sets every key except name, phone and the prefill stamp |
| LeadDraft.Merge | src/state/leadDraft.tsx:64 | a shallow merge: each key the patch sets comes from the patch, and every other key keeps the draft's value |
| LeadDraft.MergeKeys | src/state/leadDraft.tsx:64 | the merged draft sets exactly the keys of the draft and of the patch |
| LeadDraft.MergeIdempotent | src/state/leadDraft.tsx:64 | applying the same patch twice is the same as applying it once |
| LeadDraft.MergeEmpty | src/state/leadDraft.tsx:64 | the empty patch leaves a draft unchanged |
| LeadDraft.MergeCompose | src/state/leadDraft.tsx:64 | two patches applied in turn equal one patch merged from both |
| LeadDraft.MergeDoesNotOrderBudget | src/state/leadDraft.tsx:64 | the merge does not reorder the budget bounds: a patch with a lower bound of 90 over the default draft leaves the bounds crossed |
| LeadDraft.DraftStore.constructor | src/state/leadDraft.tsx:59 | the store starts with the default draft |
| LeadDraft.DraftStore.SetDraft | src/state/leadDraft.tsx:64 | the new draft is the old one merged with the patch: keys the patch sets come from the patch, and the rest are unchanged |
| LeadDraft.DraftStore.ClearDraft | src/state/leadDraft.tsx:65 | the draft is reset to the default draft |
| LeadDraft.UseLeadDraft | src/state/leadDraft.tsx:72-76 | the hook returns the provided store when there is one, and otherwise fails with the outside-provider error |
| WhatsAppFab.DraftName | src/components/WhatsAppFab.tsx:13 | the name the message uses is the draft's name trimmed, or empty when there is none |
| WhatsAppFab.MoveInClausePresent | src/components/WhatsAppFab.tsx:18-22 | the move-in clause is empty exactly when the draft has no move-in, and otherwise is ", move-in " followed by its label |
| WhatsAppFab.PersonalText | src/components/WhatsAppFab.tsx:22 | the personal message is the greeting with name, bhk, area and budget, then the move-in clause only for a non-empty move-in, then the profile clause only for a non-empty profile, then a full stop |
| WhatsAppFab.FabMessage | src/components/WhatsAppFab.tsx:12-23 | a draft without a name gets the generic message; a named draft gets the opening with its name, bhk, area and budget, then ", move-in" and the label exactly when it has a move-in, then ", " and the profile exactly when it has a profile, then a full stop |
| WhatsAppFab.ProfileClausePresent | src/components/WhatsAppFab.tsx:19-22 | the profile clause is empty exactly when the draft has no profile, and otherwise is ", " followed by the profile |
| WhatsAppFab.FabLink | src/components/WhatsAppFab.tsx:12-27 | the link goes to the shared recipient rule's number, with the button's message as its text |
| WhatsAppFab.FabDefaults | src/components/WhatsAppFab.tsx:14-19 | a named draft with no other field is described with "1–2" BHK, "Mumbai Western Suburbs" and the 40-60k budget |
| WhatsAppFab.FabLinkIgnores | src/components/WhatsAppFab.tsx:12-28 | the link depends only on the name, bhk, area, budget bounds, move-in and profile |
| SmartCtaBar.UnnamedText | src/components/SmartCtaBar.tsx:52 | the message without a name is the "Hi!" greeting and ends with a full stop |
| SmartCtaBar.CtaMessage | src/components/SmartCtaBar.tsx:43-52 | a named draft gets the personal message without a profile; an unnamed draft gets the "Looking for" message; the two are told apart by the comma after "Hi" |
| SmartCtaBar.CtaLink | src/components/SmartCtaBar.tsx:43-55 | the link goes to the shared recipient rule's number, with the bar's message as its text |
| SmartCtaBar.CtaAgreesWithFab | src/components/SmartCtaBar.tsx:43-52 | for a named draft with an area and no profile, the bar sends the same message as the floating button |
| SmartCtaBar.CtaLinkIgnores | src/components/SmartCtaBar.tsx:43-56 | the link depends only on the name, bhk, area, budget bounds and move-in: not on the profile |
| SmartCtaBar.UnnamedIgnoresMoveIn | src/components/SmartCtaBar.tsx:50-52 | without a name, the move-in does not change the message |
| SmartCtaBar.ShowNeedsRoom | src/components/SmartCtaBar.tsx:21-26 | the bar shows only past 200 pixels of scroll on a page with more than 301 pixels of room below the window, and any such page shows it at 201 pixels |
| SmartCtaBar.AnyIntersecting | src/components/SmartCtaBar.tsx:36 | the form counts as near exactly when some observed entry intersects |
| SmartCtaBar.CtaLabel | src/components/SmartCtaBar.tsx:58 | the label is the submit wording near the form and the find wording elsewhere, never empty |
| SmartCtaBar.CtaBar.constructor | src/components/SmartCtaBar.tsx:16-17 | the bar starts hidden and not near the form |
| SmartCtaBar.CtaBar.OnScroll | src/components/SmartCtaBar.tsx:21-26 | the bar's visibility becomes the scroll rule for the new position; the near-form flag is unchanged |
| SmartCtaBar.CtaBar.OnIntersect | src/components/SmartCtaBar.tsx:35-38 | the near-form flag becomes whether some entry intersects, visibility is unchanged, and the label follows the flag |
| Analytics.SafeGetEvents | src/lib/analytics.ts:12-20 | a parsed slot yields its events; a missing, empty or unreadable slot yields no events |
| Analytics.LastNShape | src/lib/analytics.ts:24 | keeping the newest n entries keeps min(length, n) of them, as a suffix, and keeps the last entry |
| Analytics.LastNAppend | src/lib/analytics.ts:24-31 | trimming before one push and trimming again gives the same log as one trim after the push |
| Analytics.EventLog.constructor | src/lib/analytics.ts:14 | the log starts from whatever the storage slot holds |
| Analytics.EventLog.SafeSetEvents | src/lib/analytics.ts:22-26 | the slot is written with the newest 200 events, so the log never holds more than 200 |
| Analytics.EventLog.LogEvent | src/lib/analytics.ts:28-36 | the log becomes the newest 200 of the old events plus the new one: it grows by one until full, the new event is last, and the older entries keep their order |
| Analytics.EventLog.GetEvents | src/lib/analytics.ts:38-40 | reading the log returns the stored events, or none when the slot is missing or unreadable |
| Analytics.EventLog.ClearEvents | src/lib/analytics.ts:42-46 | the slot is removed and the log is empty |
| Analytics.AfterLogsKeepsNewest | src/lib/analytics.ts:28-31 | logging several events in turn leaves the newest 200 of the old log followed by all of them |
| Analytics.LastNConcat | src/lib/analytics.ts:24 | trimming, appending several entries and trimming again equals one trim after appending |
| LivePulse.Recent | src/components/LivePulse.tsx:26-27 | every recent event is a logged event less than 30 minutes old, and every such logged event is kept (order and multiplicity: LivePulse.RecentAppend) |
| LivePulse.RecentAppend | src/components/LivePulse.tsx:26-27 | the filter keeps the log's order and multiplicity: filtering a concatenation filters each part |
| LivePulse.RecentSingleton | src/components/LivePulse.tsx:27 | one event is kept exactly when it is less than 30 minutes old |
| LivePulse.Reverse | src/components/LivePulse.tsx:28 | the reversal holds the same events, the last first |
| LivePulse.Labels | src/components/LivePulse.tsx:30-39 | every sentence shown is the label of some logged event; events without a label are dropped |
| LivePulse.LabelsAppend | src/components/LivePulse.tsx:30-39 | the map and filter keep the order: the sentences of a concatenation are those of each part |
| LivePulse.LabelsSingleton | src/components/LivePulse.tsx:30-39 | one event gives its label, or nothing when its name is unknown |
| LivePulse.GetRecentActivity | src/components/LivePulse.tsx:21-44 | the ticker shows between two and five sentences; a missing or unreadable log shows the fixed list; with a readable log it shows the labels of the five newest recent events when there are at least two of them, else the fixed list |
| LivePulse.RecentOfTwo | src/components/LivePulse.tsx:26-27 | two recent events both pass the filter, in order |
| LivePulse.LabelsOfTwo | src/components/LivePulse.tsx:30-39 | two known events give their two labels, in order |
| LivePulse.TwoKnownShownNewestFirst | src/components/LivePulse.tsx:21-40 | two recent known events are shown, newest first |
| LivePulse.NewestShape | src/components/LivePulse.tsx:26-29 | at most five events are kept, all recent and all logged, the most recent one first |
| LivePulse.LabelsOfUnknown | src/components/LivePulse.tsx:30-39 | events with no known name produce no sentence |
| LivePulse.UnknownEventsTakeSlots | src/components/LivePulse.tsx:26-40 | when the five newest recent events all have unknown names, the fixed list is shown even if older recent events have labels |
| LivePulse.Ticker.constructor | src/components/LivePulse.tsx:48-49 | the ticker starts on the first entry of the fixed list |
| LivePulse.Ticker.Refresh | src/components/LivePulse.tsx:60-65 | the activity list becomes the recent activity of the log; the position is kept |
| LivePulse.Ticker.Tick | src/components/LivePulse.tsx:67-71 | the position advances by one modulo the list's length, and the list is unchanged |
| Localities.SharedLocalities | src/lib/localities.ts:3-49 | "Link Road" and "SV Road" belong to every suburb's list |
| Localities.GroupFromArea | src/lib/localities.ts:51-55 | an area's group is its suburb, and the area's name starts with that suburb's name |
| Localities.GetLocalitiesForArea | src/lib/localities.ts:57-59 | an area's localities are the list of its suburb |
| Localities.SidesShareLocalities | src/lib/localities.ts:51-59 | the East and West areas of a suburb offer the same localities |
| Localities.Candidates | src/lib/localities.ts:69-71 | the candidates are exactly the localities of the searched groups |
| Localities.FirstMentioned | src/lib/localities.ts:70-74 | the index found is that of the first listed locality the text contains when lower-cased; none exactly when no listed locality occurs |
| Localities.FirstLocality | src/lib/localities.ts:70-74 | a locality found is one of the candidates, and the text contains it |
| Localities.FirstLocalityIsFirst | src/lib/localities.ts:70-75 | nothing is found exactly when no candidate occurs in the text, and what is found is the first candidate, in list order, that occurs |
| Localities.DetectLocality | src/lib/localities.ts:65-76 | empty text finds nothing; a detected locality is a candidate of the searched groups and occurs in the lower-cased text |
| Localities.DetectLocalityInArea | src/lib/localities.ts:69 | with an area given, a detected locality belongs to that area's suburb |
| Localities.DetectLocalityFirst | src/lib/localities.ts:65-76 | for non-empty text, the search returns the first candidate the text mentions, and nothing exactly when none is mentioned |
| Typeahead.NormQuery | src/components/LocalityTypeahead.tsx:13-15 | the normalised query is no longer than the input and has no upper-case letter |
| Typeahead.Matching | src/components/LocalityTypeahead.tsx:36-37 | the matches are exactly the suggestions whose normalised text contains the query |
| Typeahead.MatchingAppend | src/components/LocalityTypeahead.tsx:36-37 | the filter keeps the suggestions' order: filtering a concatenation concatenates the filtered parts |
| Typeahead.Filtered | src/components/LocalityTypeahead.tsx:33-39 | with an empty query, the first eight suggestions (all when there are at most eight); otherwise the first eight matching suggestions in their order, each containing the query |
| Typeahead.TopMatches | src/components/LocalityTypeahead.tsx:36-38 | the first min(8, matches) matching suggestions, in the list's order |
| Typeahead.TopMatchesSettled | src/components/LocalityTypeahead.tsx:36-38 | once eight suggestions match, suggestions listed after them do not change the options |
| Typeahead.TopMatchesSkipsMismatch | src/components/LocalityTypeahead.tsx:36-38 | a suggestion that does not contain the query changes nothing wherever it is listed |
| Typeahead.DownIndex | src/components/LocalityTypeahead.tsx:92 | ArrowDown moves the highlight one option down and stops at the last option; with no options it stays at -1 |
| Typeahead.UpIndex | src/components/LocalityTypeahead.tsx:97 | ArrowUp moves the highlight one option up and stops at the first option |
| Typeahead.Combobox.constructor | src/components/LocalityTypeahead.tsx:30-31 | the list starts closed with nothing highlighted |
| Typeahead.Combobox.Focus | src/components/LocalityTypeahead.tsx:73 | focusing opens the list and changes nothing else |
| Typeahead.Combobox.Type | src/components/LocalityTypeahead.tsx:74-78 | typing replaces the value, opens the list and clears the highlight |
| Typeahead.Combobox.Commit | src/components/LocalityTypeahead.tsx:51-56 | committing sets the value to the selection, closes the list and clears the highlight |
| Typeahead.Combobox.Hover | src/components/LocalityTypeahead.tsx:129 | hovering an option highlights it and changes nothing else |
| Typeahead.Combobox.OutsideClick | src/components/LocalityTypeahead.tsx:42-49 | a click outside closes the list and changes nothing else |
| Typeahead.Combobox.SetSuggestions | src/components/LocalityTypeahead.tsx:7 | new suggestions replace the old ones, and the value, open flag and highlight are kept |
| Typeahead.Combobox.KeyDown | src/components/LocalityTypeahead.tsx:79-106 | when closed, an arrow key opens the list and other keys do nothing; when open, Escape closes, the arrows move the highlight, Enter commits a highlighted option that exists and does nothing otherwise, and other keys do nothing; the highlight stays in range |
| Schema.OptionListsComplete | src/features/lead-form/schema.ts:12-15 | every bhk, furnishing, move-in and profile value appears in its option list |
| Schema.Issues | src/features/lead-form/schema.ts:23-48 | the issue list holds exactly the listed keys whose constraint fails |
| Schema.SchemaListsEveryField | src/features/lead-form/schema.ts:23-48 | every form key is one of the schema's keys |
| Schema.ValidIffNoIssues | src/features/lead-form/schema.ts:23-48 | the schema accepts a value exactly when no key has an issue |
| Schema.NoBudgetOrderRule | src/features/lead-form/schema.ts:26-27 | the schema has no rule between the two bounds: a window from 90k down to 40k is accepted |
| Schema.LabelsDistinct | src/features/lead-form/schema.ts:52-63 | distinct furnishings have distinct labels, and so do distinct move-ins |
| Schema.GetLeadScore | src/features/lead-form/schema.ts:66-70 | immediate and seven-day move-ins are hot, fifteen days is warm, 30+ is cold |
| Schema.LeadScoreMonotone | src/features/lead-form/schema.ts:66-70 | a more urgent move-in never scores colder |
| Schema.RoundToFive | src/features/lead-form/schema.ts:73-74 | the rounded amount is a multiple of five within two of the input |
| Schema.RoundToFiveNearest | src/features/lead-form/schema.ts:73-74 | no multiple of five is closer to the input than the rounded amount |
| Schema.RoundToFiveMonotone | src/features/lead-form/schema.ts:73-74 | rounding keeps the order of two amounts |
| Schema.RoundToFiveFixed | src/features/lead-form/schema.ts:73-74 | a multiple of five is its own rounding |
| Schema.ToBudgetRangeReadBack | src/features/lead-form/schema.ts:72-76 | the range text is the two rounded bounds in decimal around a hyphen, followed by "k"; the numbers read back are the rounded bounds and stay ordered |
| Schema.BudgetTextFallback | src/components/WhatsAppFab.tsx:16-17 | a draft missing a bound, or with a bound of 0, is described by the fallback "40-60k", which is the default draft's window formatted |
| Schema.FmtINR | src/features/lead-form/schema.ts:78-80 | the text begins with the rupee sign and ends with "k" |
| Schema.FmtINRReadBack | src/features/lead-form/schema.ts:78-80 | the digits between the rupee sign and the "k" read back as the amount |
| ShareWidget.WriteAreaBhk | src/components/ShareWidget.tsx:11-12 | the area and bhk are set on the query when the draft holds them |
| ShareWidget.WriteBudget | src/components/ShareWidget.tsx:13-14 | each non-zero budget bound is set under its key name: "budgetMin" and "budgetMax" as written, "min" and "max" in the corrected builder |
| ShareWidget.WriteTerms | src/components/ShareWidget.tsx:15-16 | the furnishing and move-in are set when the draft holds them |
| ShareWidget.WriteProfileLocality | src/components/ShareWidget.tsx:17-18 | the profile and a non-empty locality are set when the draft holds them |
| ShareWidget.BuildShareUrl | src/components/ShareWidget.tsx:8-21 | the method builds exactly the link the widget's query function describes: the origin's root with the query |
| ShareWidget.SetOptNew | src/components/ShareWidget.tsx:10-18 | setting a name not yet in the query appends it at the end |
| ShareWidget.Through2InOrder | src/components/ShareWidget.tsx:11-12 | after two writes the query is the area entry then the bhk entry |
| ShareWidget.Through4InOrder | src/components/ShareWidget.tsx:11-14 | after four writes the budget entries follow in order |
| ShareWidget.Through6InOrder | src/components/ShareWidget.tsx:11-16 | after six writes the furnishing and move-in entries follow in order |
| ShareWidget.Through8InOrder | src/components/ShareWidget.tsx:11-18 | after eight writes the profile and locality entries follow in order |
| ShareWidget.WidgetQueryInOrder | src/components/ShareWidget.tsx:8-19 | the query lists each present field once, in the order written, and ends with scroll=1 |
| ShareWidget.WidgetQueryGet | src/components/ShareWidget.tsx:8-19 | reading any name from the query gives the value written under it, and nothing for a name never written |
| ShareWidget.WidgetQueryValues | src/components/ShareWidget.tsx:8-19 | the query carries the draft's area, locality, bhk, furnishing, move-in and profile; "min" and "max" only from the corrected builder; no notes and no openForm; scroll=1 |
| ShareWidget.WrittenLinkDropsBudget | src/components/ShareWidget.tsx:13-14 | the prefill reads no budget back from the link the widget writes, and does scroll without opening the form |
| ShareWidget.DefaultDraftLinkLosesBudget | src/components/ShareWidget.tsx:13-14 | the default draft's link carries budgetMin=40, yet the prefill reads no lower bound from it |
| ShareWidget.IntendedLinkReadBack | src/components/ShareWidget.tsx:8-21 | with the bounds under "min" and "max", the prefill reads back the area, locality, bhk codes 1 and 2, furnishing, move-in, profile and the clamped non-zero bounds |
| ShareWidget.HasPrefsLinkStarts | src/components/ShareWidget.tsx:11-12 | when the widget's trigger shows (area and bhk set), the link's query starts with the area and then the bhk |
| UrlPrefill.Get | src/lib/urlPrefill.ts:57-60 | reading a name gives the value of a pair with that name, and nothing exactly when no pair has it |
| UrlPrefill.GetCons | src/lib/urlPrefill.ts:57-60 | a name is read from the first pair when that pair has it, and from the rest otherwise |
| UrlPrefill.Remove | src/lib/urlPrefill.ts:96-106 | after removing a name no pair has it, and every other name reads as before |
| UrlPrefill.SetGet | src/lib/urlPrefill.ts:99-109 | after setting a name it reads as the new value, and every other name reads as before |
| UrlPrefill.SetNew | src/lib/urlPrefill.ts:99-109 | setting a name not yet present appends the pair at the end |
| UrlPrefill.SetUnique | src/lib/urlPrefill.ts:99-109 | after setting a name, exactly one pair has it |
| UrlPrefill.DropRun | src/lib/urlPrefill.ts:8 | dropping a run leaves a suffix that does not start with the run's class, shorter than the input when the input starts with it |
| UrlPrefill.CollapseRuns | src/lib/urlPrefill.ts:8 | each run of a character class becomes one space: no class character is left except spaces, and no two class characters are adjacent when the space is in the class |
| UrlPrefill.CollapseKeeps | src/lib/urlPrefill.ts:8 | collapsing runs brings in no character other than spaces |
| UrlPrefill.CollapseIdentity | src/lib/urlPrefill.ts:8 | a text whose class characters are single spaces is unchanged by collapsing |
| UrlPrefill.Norm | src/lib/urlPrefill.ts:7-9 | the normalised text has no upper-case letter and no underscore, its only whitespace is the plain space, and no two spaces are adjacent |
| UrlPrefill.NormFromInput | src/lib/urlPrefill.ts:7-9 | normalising brings in nothing but spaces: every other character of the result is the lower-case form of a character of the input |
| UrlPrefill.LowerTwoWords | src/lib/urlPrefill.ts:7-9 | lower-casing two letter words joined by a space lower-cases each word |
| UrlPrefill.NormTwoWords | src/lib/urlPrefill.ts:7-9 | two letter words joined by one space normalise to the two words lower-cased |
| UrlPrefill.LettersAroundCollapse | src/lib/urlPrefill.ts:8 | a text of letters with one space between letters is unchanged by both run collapses |
| UrlPrefill.AreaNameWords | src/lib/urlPrefill.ts:3-5 | every area's name is two non-empty letter words |
| UrlPrefill.NormAreaName | src/lib/urlPrefill.ts:15 | an area's name normalises to its two words lower-cased |
| UrlPrefill.LowerAreaNameInjective | src/lib/urlPrefill.ts:21 | two areas whose names agree when lower-cased are the same |
| UrlPrefill.IndexOf | src/lib/urlPrefill.ts:18 | the position found is the first occurrence of the character, and none exactly when it does not occur |
| UrlPrefill.Split | src/lib/urlPrefill.ts:18 | splitting gives at least one piece, none containing the separator |
| UrlPrefill.SplitJoin | src/lib/urlPrefill.ts:18 | joining the pieces with the separator gives back the text |
| UrlPrefill.SplitCons | src/lib/urlPrefill.ts:18 | a text that starts with a separator-free word and a separator splits into that word and the rest's pieces |
| UrlPrefill.NonEmpty | src/lib/urlPrefill.ts:18-20 | the kept pieces are all non-empty |
| UrlPrefill.AreaTextLower | src/lib/urlPrefill.ts:13 | the area text has no upper-case letter |
| UrlPrefill.Capitalize | src/lib/urlPrefill.ts:20 | capitalising fails exactly on the empty word, and otherwise changes nothing but letter case |
| UrlPrefill.ParseAreaAsWritten | src/lib/urlPrefill.ts:11-25 | the area parser as written fails only on a present value whose area text splits into at least two pieces |
| UrlPrefill.SplitLeadingSep | src/lib/urlPrefill.ts:18 | a leading separator splits off an empty piece |
| UrlPrefill.SplitThreeSpaces | src/lib/urlPrefill.ts:18 | two words with three spaces between them split into the words with two empty pieces between |
| UrlPrefill.EmptySecondPieceThrows | src/lib/urlPrefill.ts:15-20 | as written, a value with no exact match whose second piece is empty makes the parser throw |
| UrlPrefill.LowerLetters | src/lib/urlPrefill.ts:8 | lower-casing a word of letters leaves only lower-case letters |
| UrlPrefill.HyphenAroundWords | src/lib/urlPrefill.ts:13 | two lower-case words around " - " keep letters everywhere but the spaced hyphen |
| UrlPrefill.HyphenAroundCollapse | src/lib/urlPrefill.ts:8 | a spaced hyphen between letters is unchanged by both run collapses |
| UrlPrefill.LowerAroundHyphen | src/lib/urlPrefill.ts:8 | lower-casing two words around " - " lower-cases each word and keeps the spaced hyphen |
| UrlPrefill.TrimAroundHyphen | src/lib/urlPrefill.ts:8 | two words of letters around " - " have nothing to trim |
| UrlPrefill.LowerWordsAroundHyphen | src/lib/urlPrefill.ts:8 | the lower-cased words around the spaced hyphen are letters everywhere else |
| UrlPrefill.NormSpacedHyphenWords | src/lib/urlPrefill.ts:7-9 | two words of letters around " - " normalise to the lower-case words around " - " |
| UrlPrefill.HyphenToSpaces | src/lib/urlPrefill.ts:13 | replacing the hyphen leaves the two words with three spaces between them |
| UrlPrefill.NoExactDoubledSpace | src/lib/urlPrefill.ts:15-16 | a text with two spaces in a row matches no area exactly |
| UrlPrefill.AreaTextSpacedHyphenWords | src/lib/urlPrefill.ts:13 | the area text of two words of letters around " - " is the lower-case words three spaces apart |
| UrlPrefill.SpacedHyphenThrows | src/lib/urlPrefill.ts:18-20 | as written, the parser throws on every value of two words of letters around a spaced hyphen, such as "Malad - West": the second piece is empty and its first character is undefined |
| UrlPrefill.FirstTwoWords | src/lib/urlPrefill.ts:19-22 | an area found from the first two words has a name equal to those words, ignoring case |
| UrlPrefill.ParseArea | src/lib/urlPrefill.ts:11-25 | the corrected parser finds an area only for a non-empty value, either by exact match of the area text or from its first two non-empty words |
| UrlPrefill.ParseAreaAgrees | src/lib/urlPrefill.ts:11-25 | wherever the parser as written returns, the corrected parser returns the same area |
| UrlPrefill.NonEmptyFirstTwo | src/lib/urlPrefill.ts:18-20 | when the first two pieces are non-empty, they are the first two kept words |
| UrlPrefill.CaselessMaladWest | src/lib/urlPrefill.ts:21 | any spelling of "malad" and "west", ignoring case, finds Malad West |
| UrlPrefill.ParseAreaByWords | src/lib/urlPrefill.ts:11-25 | the corrected parser reads a value with no exact match from its words |
| UrlPrefill.NonEmptyOfPieces | src/lib/urlPrefill.ts:18 | dropping the empty pieces of the three-space split leaves the two words |
| UrlPrefill.SpacedHyphenWordsParse | src/lib/urlPrefill.ts:11-25 | the corrected parser reads two words of letters around a spaced hyphen as those two words |
| UrlPrefill.LowerMaladWest | src/lib/urlPrefill.ts:8 | "Malad" and "West" lower-case to "malad" and "west" |
| UrlPrefill.SpacedHyphenParses | src/lib/urlPrefill.ts:11-25 | the corrected parser reads "Malad - West" as Malad West |
| UrlPrefill.FirstTwoWordsMaladWest | src/lib/urlPrefill.ts:19-22 | the words "malad" and "west" find Malad West |
| UrlPrefill.LowerWordsInjective | src/lib/urlPrefill.ts:15 | two areas whose lower-cased words agree are the same |
| UrlPrefill.NormAreaNameInjective | src/lib/urlPrefill.ts:15 | two areas whose names normalise alike are the same, so the exact match is unambiguous |
| UrlPrefill.ParseAreaExact | src/lib/urlPrefill.ts:15-16 | a value whose area text is an area's normalised name parses to that area |
| UrlPrefill.AreaNameNoHyphen | src/lib/urlPrefill.ts:13 | no area's normalised name holds a hyphen |
| UrlPrefill.ParseAreaName | src/lib/urlPrefill.ts:11-16 | every area's own name parses back to that area |
| UrlPrefill.ParseEnum | src/lib/urlPrefill.ts:27-31 | a value is accepted exactly when it is present, non-empty and its trimmed form is allowed, and then the trimmed form is returned |
| UrlPrefill.ParseBhk | src/lib/urlPrefill.ts:66-67 | only the codes "1" and "2" are read as a bhk |
| UrlPrefill.ParseFurnishing | src/lib/urlPrefill.ts:69-70 | a furnishing is read exactly from an allowed code, and its code is the trimmed value |
| UrlPrefill.ParseMoveIn | src/lib/urlPrefill.ts:72-73 | a move-in is read exactly from an allowed code, and its code is the trimmed value |
| UrlPrefill.ParseProfile | src/lib/urlPrefill.ts:75-76 | a profile is read exactly from an allowed code, and its code is the trimmed value |
| UrlPrefill.JsNumber | src/lib/urlPrefill.ts:35 | blank text is the number 0, and a run of decimal digits is its value |
| UrlPrefill.JsNumberOfString | src/lib/urlPrefill.ts:35 | the decimal text of any integer reads back as that integer |
| UrlPrefill.Clamp | src/lib/urlPrefill.ts:37 | the result lies in the bounds, equals the input when the input does, and is the nearer bound otherwise |
| UrlPrefill.ParseNum | src/lib/urlPrefill.ts:33-38 | a number is read exactly from a present, non-empty value that converts, and is clamped into the bounds |
| UrlPrefill.PrefillWith | src/lib/urlPrefill.ts:55-90 | the patch holds the given area, no name, phone or stamp, the locality and notes only when non-empty as given, bhk only 1 or 2, bounds within 10 to 300; the form opens exactly on openForm=1 and scrolls on scroll=1 or when it opens |
| UrlPrefill.Prefill | src/lib/urlPrefill.ts:55-90 | the prefill reads the area with the corrected parser |
| UrlPrefill.PrefillAsWritten | src/lib/urlPrefill.ts:55-61 | the prefill as written fails exactly when its area parser throws |
| UrlPrefill.PrefillAgrees | src/lib/urlPrefill.ts:55-90 | wherever the prefill as written returns, it returns the corrected prefill's result |
| UrlPrefill.PrefillThrowsOnSpacedHyphen | src/lib/urlPrefill.ts:60 | a link with area "Malad - West" makes the prefill as written throw, while the corrected one reads Malad West |
| UrlPrefill.PrefillNeedsParams | src/lib/urlPrefill.ts:55-81 | every field the patch sets comes from a parameter present in the query |
| UrlPrefill.DigitsValueStep | src/lib/urlPrefill.ts:35 | appending a digit multiplies the value by ten and adds the digit |
| UrlPrefill.JsNumberDigits | src/lib/urlPrefill.ts:35 | a non-empty run of digits converts to its decimal value |
| UrlPrefill.ParseNumLiteral | src/lib/urlPrefill.ts:33-38 | a digit run whose value lies within 10 to 300 is read as that value |
| UrlPrefill.ParseNum250 | src/lib/urlPrefill.ts:78 | "250" is read as 250 |
| UrlPrefill.ParseNum20 | src/lib/urlPrefill.ts:79 | "20" is read as 20 |
| UrlPrefill.PrefillDoesNotOrderBudget | src/lib/urlPrefill.ts:78-81 | min=250 with max=20 is read as crossed bounds: nothing orders them |
| UrlPrefill.ReadPlace | src/lib/urlPrefill.ts:60-64 | the area is set when it parses, and the locality when it is non-empty; other fields are untouched |
| UrlPrefill.ReadChoices | src/lib/urlPrefill.ts:66-76 | each of bhk, furnishing, move-in and profile is set when its parameter parses; other fields are untouched |
| UrlPrefill.ReadBudget | src/lib/urlPrefill.ts:78-81 | each bound is set when its parameter reads as a number, clamped to 10 to 300 |
| UrlPrefill.ParsePrefillFromUrl | src/lib/urlPrefill.ts:55-90 | the method computes the prefill of the URL's query |
| UrlPrefill.SetOptGet | src/lib/urlPrefill.ts:99-106 | an optional write changes a name's reading only when a value is written under it |
| UrlPrefill.ShareParamsGet | src/lib/urlPrefill.ts:96-109 | openForm reads as "1", every field the draft holds reads as its value, and every other name keeps its base value |
| UrlPrefill.BuildShareLink | src/lib/urlPrefill.ts:92-112 | the method builds the base URL with the new path and the share query |
| UrlPrefill.ShareLinkValues | src/lib/urlPrefill.ts:96-109 | over a base with none of the prefill's names, the link carries exactly the draft's area, trimmed locality, bhk, bounds, furnishing, move-in and profile, no notes, openForm=1 and no scroll |
| UrlPrefill.FurnishingCodeParsesBack | src/lib/urlPrefill.ts:69-104 | every furnishing's code parses back to it |
| UrlPrefill.MoveInCodeParsesBack | src/lib/urlPrefill.ts:72-105 | every move-in's code parses back to it |
| UrlPrefill.ProfileCodeParsesBack | src/lib/urlPrefill.ts:75-106 | every profile's code parses back to it |
| UrlPrefill.ParseEnumCode | src/lib/urlPrefill.ts:27-31 | a code without surrounding whitespace is accepted exactly when it is allowed |
| UrlPrefill.BhkCodeParsesBack | src/lib/urlPrefill.ts:66-101 | the codes "1" and "2" parse back to their bhk, while "3" and "4+" are written but not read |
| UrlPrefill.AreaValueReadBack | src/lib/urlPrefill.ts:60-99 | the area written into a link parses back to the draft's area |
| UrlPrefill.BhkValueReadBack | src/lib/urlPrefill.ts:66-101 | the bhk written into a link reads back when it is 1 or 2, and is lost otherwise |
| UrlPrefill.EnumValuesReadBack | src/lib/urlPrefill.ts:69-106 | the furnishing, move-in and profile written into a link read back unchanged |
| UrlPrefill.BudgetValueReadBack | src/lib/urlPrefill.ts:78-103 | a bound written into a link reads back clamped into 10 to 300 |
| UrlPrefill.PrefillFields | src/lib/urlPrefill.ts:55-85 | each field of the prefill's patch is the parse of its own parameter |
| UrlPrefill.ShareLinkReadBack | src/lib/urlPrefill.ts:55-112 | reading a share link back yields the draft's area, trimmed locality, furnishing, move-in and profile, bhk only when 1 or 2, the bounds clamped, no notes, and both opening and scrolling |
| UrlPrefill.ShareLinkRoundTrip | src/lib/urlPrefill.ts:55-112 | a draft with an area, bhk 1 or 2, bounds in 10 to 300 and a trimmed locality survives the share link unchanged, except the fields the link does not carry |
| UrlPrefill.ReadBackIsDraft | src/lib/urlPrefill.ts:55-112 | a patch holding every carried field as the round trip reads it equals the draft without its uncarried fields |
| Engine.Norm | src/bot/engine.ts:8-10 | the normalised text is no longer than the input and has no whitespace at either end |
| Engine.NormLowerCase | src/bot/engine.ts:8-10 | the normalised text has no upper-case letter |
| Engine.NormIsLoweredSlice | src/bot/engine.ts:8-10 | the normalised text is the lower-casing, character by character, of one contiguous piece of the input |
| Engine.NormIdempotent | src/bot/engine.ts:8-10 | normalising twice is normalising once |
| Engine.SuburbMentioned | src/bot/engine.ts:29-32 | the suburb found is the first of Malad, Kandivali and Borivali whose name occurs in the text, and none exactly when none occurs |
| Engine.SideMentioned | src/bot/engine.ts:34-36 | the side is West exactly when a West cue occurs, and East exactly when an East cue occurs without a West cue |
| Engine.AreaRule | src/bot/engine.ts:28-40 | an area is set exactly when both a suburb and a side are found, and it is that suburb on that side |
| Engine.BhkMatch | src/bot/engine.ts:52 | the bhk pattern's match is its leftmost one: it matches there and at no earlier position |
| Engine.BhkRule | src/bot/engine.ts:51-57 | only 1 or 2 is read; the leftmost "bhk" match decides wherever it is, else the leftmost "b" match, else the leftmost "bed" match, else "1bhk" then "2bhk"; nothing is read exactly when no pattern matches anywhere and neither fallback occurs |
| Engine.SkipAfterTwo | src/bot/engine.ts:52 | in "2 bed 1bhk" the spaces after the first digit end at index 2 |
| Engine.BedMatchesFirst | src/bot/engine.ts:52 | "2 bed" matches the bed pattern at the start of "2 bed 1bhk" |
| Engine.NoBhkAtStart | src/bot/engine.ts:52 | the bhk pattern does not match at the start of "2 bed 1bhk" |
| Engine.BhkMatchesAtSix | src/bot/engine.ts:52 | "1bhk" matches the bhk pattern at index 6 of "2 bed 1bhk" |
| Engine.FirstBhkAtSix | src/bot/engine.ts:52 | the leftmost bhk match in "2 bed 1bhk" is at index 6 |
| Engine.BhkPatternBeatsBed | src/bot/engine.ts:51-57 | in "2 bed 1bhk" the bed pattern matches first in the text, yet the bhk pattern wins and 1 is read |
| Engine.FurnishingRule | src/bot/engine.ts:59-62 | Furnished when a fully furnished word occurs, else Semi when a semi word occurs, else Unfurnished when an unfurnished word occurs, else nothing |
| Engine.ContainsFurnished | src/bot/engine.ts:60 | a text with "furnished" at some position contains "furnished" |
| Engine.FurnishedShadowsOthers | src/bot/engine.ts:59-62 | the rule never yields Unfurnished, since every unfurnished word contains "furnished", and it yields Semi only for a text without "furnished" |
| Engine.ProfileRule | src/bot/engine.ts:64-67 | Family, Bachelor and Company in that priority, each exactly when its words occur and no earlier profile's do |
| Engine.MoveInRule | src/bot/engine.ts:69-73 | Immediate, then seven days, then fifteen days, then 30+, each exactly when its condition holds and no earlier condition does |
| Engine.SeventeenReadsAsSeven | src/bot/engine.ts:71 | "17 days" is read as a seven-day move-in, since any "7" counts |
| Engine.ToK | src/bot/engine.ts:81-96 | lakhs count 100 thousands, thousands count as they are, bare amounts of 1000 or more are rupees rounded to the nearest thousand |
| Engine.FirstRange | src/bot/engine.ts:98-99 | the range pattern's match is its leftmost one |
| Engine.FirstSingle | src/bot/engine.ts:109 | the single-amount pattern's match is its leftmost one |
| Engine.BudgetRule | src/bot/engine.ts:98-119 | a range is read exactly when the range pattern matches; a single amount exactly when it does not and the single pattern matches |
| Engine.BudgetBounds | src/bot/engine.ts:104-115 | a range sets its two amounts in order; a single amount k sets the window from the larger of 20 and k-10 to k+10 |
| Engine.NoTailAt | src/bot/engine.ts:99 | no second amount of the range pattern starts at the end of the text or at a character that is not a space, a dash or the 't' of "to" |
| Engine.NoMatchBeforePoint | src/bot/engine.ts:98-110 | a one-digit integer run followed by a point matches neither the range nor the single pattern, as the model reads runs (see Left out) |
| Engine.LakhAtEndSteps | src/bot/engine.ts:109 | for a one-digit run followed by " lakh" at the end of the text, the run ends after the digit, the unit starts after the space (as "l" and as "lakh"), and the run's value is the digit |
| Engine.LakhAtEndNoRange | src/bot/engine.ts:99 | a one-digit run followed by " lakh" at the end of the text starts no range |
| Engine.LakhAtEndSingle | src/bot/engine.ts:109-111 | a one-digit run followed by " lakh" at the end of the text is read as that digit times 100k: "l" fails the word boundary, "lakh" meets it |
| Engine.SingleWhenNoRange | src/bot/engine.ts:108-111 | with no range match, the budget is the single amount at the first position where one matches |
| Engine.RangeWhenFirst | src/bot/engine.ts:98-102 | the budget is the range match at the first position where one matches |
| Engine.FractionLakhReads | src/bot/engine.ts:98-111 | a text shaped like "1.5 lakh" has no range match and, as the model reads runs, sets the digit after the point in lakh (see Left out) |
| Engine.DecimalLakhShape | src/bot/engine.ts:109 | "1.5 lakh" has exactly two digit runs, at positions 0 and 2 |
| Engine.DecimalLakhReadsFraction | src/bot/engine.ts:108-111 | the model's budget for "1.5 lakh" is the single amount 500k, read from the digit after the point (the code reads 150k; see Left out) |
| Engine.DecimalRangeTail | src/bot/engine.ts:99 | in "1.5-2l" the range tail after the run "5" is 2 in lakh |
| Engine.DecimalRangeAtTwo | src/bot/engine.ts:98-102 | in "1.5-2l" the range match on the run after the point is 5k to 200k |
| Engine.DecimalRangeReadsFraction | src/bot/engine.ts:98-102 | the model's budget for "1.5-2l" is the range 5k to 200k (the code reads 2k to 200k; see Left out) |
| Engine.SingleWindowOrderedFromTen | src/bot/engine.ts:114-115 | a single amount's window is ordered exactly when the amount is at least 10k |
| Engine.FirstNote | src/bot/engine.ts:122 | the notes pattern's match is its leftmost one |
| Engine.NotesRule | src/bot/engine.ts:121-126 | there is no note exactly when the notes pattern matches nowhere; otherwise the note is the leftmost match's capture from the original input, trimmed and cut to 200 characters, so it is a piece of the input in its typed case, at most 200 long, with no leading whitespace |
| Engine.NoteIsSuffix | src/bot/engine.ts:122-123 | the capture of a notes match is the rest of the original input from some index |
| Engine.NoteOccurs | src/bot/engine.ts:122-124 | the trimmed, cut capture of a match occurs in the input |
| Engine.TrimmedSuffixOccurs | src/bot/engine.ts:124 | trimming a suffix and cutting it to 200 leaves a piece of the text |
| Engine.PrefixOfSliceOccurs | src/bot/engine.ts:124 | a prefix of a slice of a suffix occurs in the text |
| Engine.LowerNote | src/bot/engine.ts:122 | the label "Note" lower-cases to "note", so the case-insensitive label matches |
| Engine.NoteAfterLabel | src/bot/engine.ts:122-123 | "Note: " then one line starting with no whitespace captures that line |
| Engine.NoteAtStartIsFirst | src/bot/engine.ts:122 | a match at index 0 is the leftmost one |
| Engine.NoteAfterLabelKept | src/bot/engine.ts:121-126 | "Note: " then one line of at most 200 characters with no whitespace at its ends gives that line unchanged, in its typed case |
| Engine.NearStationShape | src/bot/engine.ts:124 | "Near STATION" is one line with no whitespace at its ends |
| Engine.NoteKeepsCase | src/bot/engine.ts:121-126 | "Note: Near STATION" gives the note "Near STATION", case kept |
| Engine.BlankNoteIsPresent | src/bot/engine.ts:122-124 | "note: " yields a note that is empty but present |
| Engine.PatchOf | src/bot/engine.ts:24-133 | the patch holds each rule's result under its key, both budget keys or neither, and never a name, phone or stamp |
| Engine.AddArea | src/bot/engine.ts:41-49 | the area step sets the area when the rule finds one, and appends its summary part or the per-suburb hints |
| Engine.AddBhk | src/bot/engine.ts:53-57 | the bhk step sets the bhk the rule reads and appends its summary part |
| Engine.AddFurnishing | src/bot/engine.ts:60-62 | the furnishing step sets the furnishing the rule reads and appends its summary part |
| Engine.AddProfile | src/bot/engine.ts:65-67 | the profile step sets the profile the rule reads and appends its summary part |
| Engine.AddMoveIn | src/bot/engine.ts:70-73 | the move-in step sets the move-in the rule reads and appends its summary part |
| Engine.AddBudget | src/bot/engine.ts:98-119 | the budget step sets both bounds of the rule's window, or neither, and appends its summary part |
| Engine.AddNotes | src/bot/engine.ts:122-126 | the notes step sets the note the rule reads from the original input and appends "Added note" |
| Engine.AddLocality | src/bot/engine.ts:129-133 | the locality step sets the locality detected in the input, searched within the area already in the patch |
| Engine.ParsePrefs | src/bot/engine.ts:22-136 | the step-by-step extractor returns exactly the patch and summary of the rules applied to the message |
| Engine.KeysHaveParts | src/bot/engine.ts:41-133 | every key the rules set comes with a summary part |
| Engine.MeaningfulPatchHasSummary | src/bot/engine.ts:135-181 | a meaningful patch always has a summary, so "Got it." is never shown |
| Engine.PatchOfKeys | src/bot/engine.ts:24-133 | a patch of the rules sets only the chat's nine keys, and both budget keys or neither |
| Engine.ExtractedKeys | src/bot/engine.ts:22-136 | the patch the extractor returns sets only the chat's nine keys, and both budget keys or neither |
| Engine.LocalityFollowsArea | src/bot/engine.ts:129 | when a message sets both an area and a locality, the locality belongs to that area's suburb |
| Engine.Route | src/bot/engine.ts:165-302 | the branch taken is the first branch, in the chain's order, whose condition holds, or the fallback exactly when none holds |
| Engine.FixedActionsNoApply | src/bot/engine.ts:217-291 | none of the fixed action lists applies a draft (the action type is at lines 142-149) |
| Engine.OthersOfferNoApply | src/bot/engine.ts:165-302 | no branch except the capturing one lists a draft-applying action |
| Engine.OnlyCapturedOffersApply | src/bot/engine.ts:186-189 | a draft-applying action is offered exactly by the capturing branch, and it comes first there |
| Engine.ReplyFor | src/bot/engine.ts:165-302 | the reply takes the routed branch; only the capturing branch offers to apply the patch, first, with the summary parts joined by " • " |
| Engine.ReplyToUser | src/bot/engine.ts:165-302 | the reply to a message takes the routed branch of its normalised text and its extracted patch; only the capturing branch offers the patch and shows a summary |
| Engine.HiShadowsPreferences | src/bot/engine.ts:169-180 | any message whose text contains "hi", even inside a word, gets the greeting, and its preferences are not offered |
| Engine.HiInWithin | src/bot/engine.ts:169 | "within" contains "hi" |
| Engine.WithinIsAGreeting | src/bot/engine.ts:169 | a message with "within", one of the move-in words, is answered as a greeting (the move-in words are at line 71) |
| Chatbot.ClampLen | src/components/ChatbotWidget.tsx:22-26 | the trimmed text when at most 600 characters, else its first 600 characters and an ellipsis; never longer than 601, and empty exactly when the trimmed text is |
| Chatbot.ClampLenIdempotent | src/components/ChatbotWidget.tsx:22-26 | clamping a clamped text changes nothing |
| Chatbot.ChatWaLink | src/components/ChatbotWidget.tsx:34-38 | the link goes to the shared recipient rule's number and carries the text as given |
| Chatbot.InitialMessages | src/components/ChatbotWidget.tsx:49-59 | the initial transcript is one bot message, the welcome |
| Chatbot.TurnKeepsWellFormed | src/components/ChatbotWidget.tsx:89-98 | a user message followed by an engine answer keeps the transcript's welcome-then-alternating shape |
| Chatbot.ResetIsInvisible | src/components/ChatbotWidget.tsx:70-76 | in a well-formed transcript a lone bot message is the welcome, so the reset puts back the same message |
| Chatbot.ScrollTarget | src/components/ChatbotWidget.tsx:107 | the scroll target is never empty: the action's own non-empty id, else "lead" |
| Chatbot.ChatPanel.constructor | src/components/ChatbotWidget.tsx:40-61 | the panel starts closed, with an empty composer and the initial transcript |
| Chatbot.ChatPanel.Toggle | src/components/ChatbotWidget.tsx:140-146 | the launcher flips the open flag and changes nothing else |
| Chatbot.ChatPanel.SetInput | src/components/ChatbotWidget.tsx:255 | typing sets the composer's text and changes nothing else |
| Chatbot.ChatPanel.PushUser | src/components/ChatbotWidget.tsx:85-87 | appends one user message and changes nothing else |
| Chatbot.ChatPanel.PushBot | src/components/ChatbotWidget.tsx:78-83 | appends one bot message carrying the reply and its quick actions, and changes nothing else |
| Chatbot.ChatPanel.HandleSend | src/components/ChatbotWidget.tsx:89-98 | a blank clamped text changes nothing; otherwise the transcript gains the clamped text and the engine's reply to it, the composer is cleared, and the transcript's shape is kept |
| Chatbot.ChatPanel.Exchange | src/components/ChatbotWidget.tsx:92-97 | one turn appends the user message and the reply, clears the composer and keeps the transcript's shape |
| Chatbot.ChatPanel.PhoneChanged | src/components/ChatbotWidget.tsx:70-76 | a phone change resets a transcript holding only the bot's message to the initial one, leaves a started chat alone, and in both cases the transcript ends up unchanged |
| Chatbot.ChatPanel.HandleQuickAction | src/components/ChatbotWidget.tsx:100-133 | applying a draft merges it into the shared store, closes the panel and scrolls to its target; a scroll closes the panel and scrolls; WhatsApp, tel and link actions open their link and leave the panel and the store alone; the transcript is never touched |
| Chatbot.CapturedReplyAppliesPatch | src/bot/engine.ts:179-191 | a reply that captured preferences offers first to apply exactly the extracted patch and then scroll to the lead form |
| StepForm.NextStep | src/features/lead-form/LeadForm.tsx:386-405 | step 1 advances to 2 exactly when the five requirement fields validate; step 2 advances to 3 exactly when move-in and profile validate; step 3 stays |
| StepForm.PrevStep | src/features/lead-form/LeadForm.tsx:407-411 | back goes from 3 to 2 and from anything else to 1, never forward |
| StepForm.BackUndoesNext | src/features/lead-form/LeadForm.tsx:386-411 | going back after a step that advanced returns to the step before it |
| StepForm.ThirdStepNeedsBothSteps | src/features/lead-form/LeadForm.tsx:386-405 | reaching the contact step from the first needs both steps' fields to validate |
| StepForm.WaitSeconds | src/features/lead-form/LeadForm.tsx:418-420 | the wait is the remaining cooldown rounded up to whole seconds, between 1 and 60 inside the cooldown |
| StepForm.KeepLocality | src/features/lead-form/LeadForm.tsx:373-380 | a locality is kept exactly when it is empty or matches a suggestion case-insensitively after trimming; otherwise it is cleared |
| StepForm.KeepLocalityIdempotent | src/features/lead-form/LeadForm.tsx:373-380 | running the locality check twice is running it once |
| StepForm.SuggestionKept | src/features/lead-form/LeadForm.tsx:373-380 | a typed locality equal to a suggestion up to case, with no surrounding spaces, is kept |
| StepForm.InitialValues | src/features/lead-form/LeadForm.tsx:327-340 | the defaults fill every missing draft field with a valid choice (Malad West, 2 BHK, semi-furnished, immediate, family) and an empty honeypot |
| StepForm.InitialStepOneOk | src/features/lead-form/LeadForm.tsx:327-390 | the first step of a fresh form validates exactly when both initial budget bounds are inside the schema's 10 to 300 |
| StepForm.SyncPatch | src/features/lead-form/LeadForm.tsx:352-366 | the draft sync writes the values as they are, the phone as its digits only, and the area only when it names one |
| StepForm.SyncRestoresDraft | src/features/lead-form/LeadForm.tsx:327-366 | syncing a fresh form back into its draft leaves every field the draft had as it was, except the prefill stamp |
| StepForm.TrimmedOrNone | src/features/lead-form/LeadForm.tsx:443-449 | an optional text becomes its trimmed value, or nothing when missing or blank |
| StepForm.RequestOf | src/features/lead-form/LeadForm.tsx:439-461 | the request carries the trimmed name, the ten-digit phone, the chosen area and bhk, trimmed-or-missing locality and notes, the budget band of the two bounds and the "Website" source |
| StepForm.HoneypotCheckUnreachable | src/features/lead-form/LeadForm.tsx:425 | values that validated always have an empty honeypot, so the honeypot return is never taken |
| StepForm.SlideMin | src/features/lead-form/LeadForm.tsx:276-279 | the minimum slider never passes the maximum, and leaves a value at or below it as it is |
| StepForm.SlideMax | src/features/lead-form/LeadForm.tsx:291-294 | the maximum slider never drops below the minimum, and leaves a value at or above it as it is |
| StepForm.PresetsOrdered | src/features/lead-form/LeadForm.tsx:229-234 | every preset is an ordered pair of bounds inside the schema's 10 to 300 |
| StepForm.Cooldown.constructor | src/features/lead-form/LeadForm.tsx:50-51 | the shared clock starts at 0 |
| StepForm.LeadFormState.constructor | src/features/lead-form/LeadForm.tsx:309-380 | a new form opens on step 1 with nothing submitted, no error and no event, holding the draft's default values with the locality checked against the area's suggestions |
| StepForm.LeadFormState.GoNext | src/features/lead-form/LeadForm.tsx:386-405 | clears the error, takes the next step, logs the completed step only when it advanced, always logs the view of the following step, and keeps the values |
| StepForm.LeadFormState.GoBack | src/features/lead-form/LeadForm.tsx:407-411 | clears the error, takes the previous step and changes nothing else |
| StepForm.LeadFormState.ChangeArea | src/features/lead-form/LeadForm.tsx:687-693 | choosing the current area changes nothing; another area is set and the locality is checked against its suggestions (the suggestion check is at lines 373-380) |
| StepForm.LeadFormState.SetLocality | src/features/lead-form/LeadForm.tsx:703 | the typeahead sets the locality and nothing else |
| StepForm.LeadFormState.SetMinSlider | src/features/lead-form/LeadForm.tsx:276-279 | sets the minimum as the slider clamps it, keeping the bounds ordered (the slider is bound at line 714) |
| StepForm.LeadFormState.SetMaxSlider | src/features/lead-form/LeadForm.tsx:291-294 | sets the maximum as the slider clamps it, keeping the bounds ordered (the slider is bound at line 715) |
| StepForm.LeadFormState.ApplyPreset | src/features/lead-form/LeadForm.tsx:251-254 | a preset sets both bounds to its pair, ordered and inside the schema's 10 to 300, and nothing else changes |
| StepForm.LeadFormState.SyncDraft | src/features/lead-form/LeadForm.tsx:352-366 | the shared draft becomes its shallow merge with the values' patch |
| StepForm.LeadFormState.Submit | src/features/lead-form/LeadForm.tsx:413-461 | invalid values change nothing; inside the cooldown the wait message is shown and nothing is sent; otherwise the request of the values is sent, the clock is set and the form is submitting |
| StepForm.LeadFormState.Complete | src/features/lead-form/LeadForm.tsx:463-495 | an accepted request records its lead id, marks the form submitted and logs success; a rejected one shows its error; submitting ends in both cases |
| StepForm.CooldownBlocksWithinAMinute | src/features/lead-form/LeadForm.tsx:418-420 | a submission less than 60 seconds after the last is held back with a wait of 1 to 60 seconds |
| LandingForm.Clamp | src/components/LeadForm.tsx:50-52 | for ordered bounds the result lies between them: the number itself when inside, else the bound it passed |
| LandingForm.ValidatePhone | src/components/LeadForm.tsx:83-87 | an error exactly when the input's digits are not exactly ten, and then the phone message |
| LandingForm.ReportedPhone | src/components/LeadForm.tsx:151-155 | the page is told the ten digits of the phone when there are exactly ten, and the empty string otherwise |
| LandingForm.Step1Record | src/components/LeadForm.tsx:185-192 | each first-step error is recorded exactly when its condition holds, and none exactly when none does |
| LandingForm.StepErrors | src/components/LeadForm.tsx:185-192 | the first step has no error exactly when the trimmed name is not blank and the phone has ten digits; the area, always chosen, never fails |
| LandingForm.Step2Errors | src/components/LeadForm.tsx:194-201 | the second step's four choices always hold a value, so it never has an error |
| LandingForm.LandingPresetsInRange | src/components/LeadForm.tsx:478-483 | every preset is an ordered pair inside the slider's 20 to 150 |
| LandingForm.MinSlide | src/components/LeadForm.tsx:505-509 | the minimum slider's value never passes the maximum and stays within 20 to 150 when the maximum does |
| LandingForm.MaxSlide | src/components/LeadForm.tsx:517-521 | the maximum slider's value never drops below the minimum and stays within 20 to 150 when the minimum does |
| LandingForm.InitialFields | src/components/LeadForm.tsx:129-181 | each field starts from the draft's value when present, else its default (Malad West, 40 to 60, 1 BHK, semi-furnished, immediate, family), with the locality checked against the area |
| LandingForm.CleanIffNameAndPhone | src/components/LeadForm.tsx:241-244 | only a blank name or a phone without ten digits can block a submission |
| LandingForm.PayloadOfCleanFields | src/components/LeadForm.tsx:248-265 | the posted body of clean inputs has a name, a ten-digit phone, the chosen area, the "landing" source, and a locality and notes exactly when they are not blank, trimmed |
| LandingForm.SyncPatch | src/components/LeadForm.tsx:157-172 | the draft sync writes every field but the prefill stamp, the phone as its digits only |
| LandingForm.SyncRestoresDraft | src/components/LeadForm.tsx:129-181 | syncing a fresh form back into its draft leaves every field the draft had as it was, except the prefill stamp |
| LandingForm.FirstTruthy | src/components/LeadForm.tsx:286-292 | the first of two optional texts that is present and non-empty, else the fallback |
| LandingForm.FailureMessage | src/components/LeadForm.tsx:286 | a failed response's message is never empty, and without a body it is "Request failed (status)" |
| LandingForm.SuccessId | src/components/LeadForm.tsx:292-293 | the lead id shown is never empty, and "Created" without a body |
| LandingForm.NetworkMessage | src/components/LeadForm.tsx:309-311 | a network failure's message is never empty: the error's own message, else the network error text |
| LandingForm.LandingFormState.constructor | src/components/LeadForm.tsx:117-148 | a new form opens on step 1 with the trimmed API address, the draft's initial fields, nothing submitting, no lead id and no error |
| LandingForm.LandingFormState.NextStep | src/components/LeadForm.tsx:203-224 | clears the error; step 1 advances exactly when it has no error; step 2 always advances; step 3 stays; the fields are kept |
| LandingForm.LandingFormState.PrevStep | src/components/LeadForm.tsx:226-229 | clears the error and goes from 3 to 2 and from anything else to 1 |
| LandingForm.LandingFormState.TypeName | src/components/LeadForm.tsx:418 | sets the name and nothing else |
| LandingForm.LandingFormState.TypePhone | src/components/LeadForm.tsx:431 | the phone keeps only the typed digits |
| LandingForm.LandingFormState.SetArea | src/components/LeadForm.tsx:445 | choosing the current area changes nothing; another area is set and the locality is kept or cleared by the suggestion check (the suggestion check is at lines 174-181) |
| LandingForm.LandingFormState.SetLocality | src/components/LeadForm.tsx:463 | sets the locality and nothing else |
| LandingForm.LandingFormState.SetMinSlider | src/components/LeadForm.tsx:505-509 | sets the minimum as the slider clamps it, keeping the bounds ordered and inside 20 to 150 |
| LandingForm.LandingFormState.SetMaxSlider | src/components/LeadForm.tsx:517-521 | sets the maximum as the slider clamps it, keeping the bounds ordered and inside 20 to 150 |
| LandingForm.LandingFormState.ApplyPreset | src/components/LeadForm.tsx:486-490 | a preset sets both bounds to its ordered pair inside 20 to 150 |
| LandingForm.LandingFormState.SyncDraft | src/components/LeadForm.tsx:157-172 | the shared draft becomes its shallow merge with the fields' patch |
| LandingForm.LandingFormState.PhoneForPage | src/components/LeadForm.tsx:151-155 | what the page is told is empty or ten digits |
| LandingForm.LandingFormState.Submit | src/components/LeadForm.tsx:231-268 | the lead id is cleared; without an API address the missing-address error is shown; with errors the fix-fields error is shown; otherwise the payload of the fields is posted, the error cleared and the form submitting |
| LandingForm.LandingFormState.SendIfClean | src/components/LeadForm.tsx:240-268 | inputs with an error yield the fix-fields error and nothing posted; clean inputs post their payload and start submitting |
| LandingForm.LandingFormState.Complete | src/components/LeadForm.tsx:285-315 | submitting ends; a failed response or a network failure shows its message, a successful one records its lead id, and the fields and step are kept |

## Left out

- Browser and network effects are not modelled: `fetch`, `localStorage` exceptions beyond an unreadable slot, timers and delays, focus traps, scrolling, DOM lookups, `window.open`, the clipboard, toasts and `track` telemetry. Each handler returns or records what it would ask the page to do. Clock readings (`Date.now()`) are parameters.
- Record ids, timestamps, the A/B variant, the device class, the landing URL and the UTM tags in submitted requests are left out, because they come from the browser or from randomness.
- `encodeURIComponent` and the URL serialisation are left out. Links are modelled as a recipient and a text, or as an origin, a path and a list of query pairs.
- `Number(...)` on a URL value is modelled for blank strings and optionally signed decimal digit runs only. Fractions, exponents and hexadecimal forms are read as not finite, so `UrlPrefill.ParseNum` rejects "45.5" where the code would clamp 45.5. Budgets are whole thousands throughout the model.
- Engine.BudgetRule: the model reads only integer digit runs, and any run counts, including one that starts right after a decimal point. So a decimal amount is misread as its fraction digits. "1.5 lakh" is read as 5 lakh, a 490k to 510k window, where the code's `\d+(?:\.\d+)?` and `parseFloat` read 1.5 lakh and set 140k to 160k (`DecimalLakhReadsFraction`). "1.5-2l" is read as 5k to 200k, where the code sets 2k to 200k (`DecimalRangeReadsFraction`). Only amounts written with a decimal point are affected. The rupee sign in the patterns, which the source file stores mis-encoded, is modelled as one optional character.
- The wording of the fixed FAQ answers (`src/bot/knowledge.ts`) is not part of this model. A reply is modelled by its topic, its summary parts and its quick actions.
- The ShareWidget's WhatsApp message text is not modelled; it is display text. LivePulse's concurrent visitor count comes from `sessionTracker`, which is not part of this model.
- Engine.AddLocality searches for the locality only within the area found in the same message: the code passes only the patch's area to `detectLocality`, never the draft's.
- Engine.FurnishingRule keeps the code's order: fully furnished, then semi, then unfurnished. Because "furnished" is one of the fully-furnished words, "unfurnished" is read as Furnished (see Engine.FurnishedShadowsOthers).
- Strings.LowerChar covers ASCII only. It maps 'A' to 'Z' and keeps every other character, where `toLowerCase` applies the full Unicode mapping (for example 'İ', 'Ä' or the Kelvin sign).
- Strings.Lower inherits that restriction: text outside ASCII keeps its case in the model, and the model lower-cases one character to one character.
- Strings.UpperChar covers ASCII only. It maps 'a' to 'z' and keeps every other character, where `toUpperCase` applies the Unicode mapping, which can also lengthen the text ('ß' becomes "SS").
- Chatbot.ClampLen counts characters, where JavaScript's `length` and `slice` count UTF-16 code units. A text with characters outside the Basic Multilingual Plane, such as emoji, is cut at 600 characters in the model but at 600 code units in the code.
- Engine.NotesRule cuts the note at 200 characters, where the code's `slice(0, 200)` cuts at 200 UTF-16 code units, possibly inside a surrogate pair.
- Schema.Issues checks `min(2)`, `max(80)` and `max(500)` in characters, where zod counts UTF-16 code units. So a one-character emoji name fails in the model but passes the code, whose length for it is 2.
- Rendering, styling, animation and the pages and components outside the lead flow are not part of this model.

## Findings

| source | as written | input that shows it | evidently intended | confidence | as-written member | corrected member |
|---|---|---|---|---|---|---|
| src/lib/urlPrefill.ts:18-20 | `parseArea` splits the normalised value on single spaces and reads the first character of the first two pieces | `?area=Malad - West`, or any two words of letters around a spaced hyphen: after the hyphen becomes a space, a piece is empty, `parts[1][0]` is undefined, and `toUpperCase` throws, so the whole prefill fails | empty pieces are skipped, so a spaced hyphen reads as the area | not executed | UrlPrefill.ParseAreaAsWritten, UrlPrefill.SpacedHyphenThrows, UrlPrefill.PrefillThrowsOnSpacedHyphen | UrlPrefill.ParseArea, UrlPrefill.SpacedHyphenWordsParse, UrlPrefill.SpacedHyphenParses |
| src/components/ShareWidget.tsx:13-14 | the share link writes the budget bounds as `budgetMin` and `budgetMax` | any draft with budget bounds, such as the default draft: the prefill reads only `min` and `max`, so the opened link carries no budget | the bounds are written under `min` and `max`, like the other share builder, and read back | not executed | ShareWidget.WrittenLinkDropsBudget, ShareWidget.DefaultDraftLinkLosesBudget | ShareWidget.IntendedLinkReadBack |
