# PropListAI listing generator — a Dafny model of its core

PropListAI is a browser application that asks a generative-language
service to write one real-estate listing per platform (Zillow, Redfin and
an agent's own website) from a property form. This project models the rules
in `js/app.js` that decide what is sent, what comes back and what the user
sees:

- how the property record is built from the form, with a default for every
  blank field;
- the prompt for one platform, including the writing-style lookup and the
  platform requirements;
- the demo listing that stands in when a call fails;
- how a service reply is classified into accepted text or an error message;
- the API-key check;
- the required-field check;
- the application state (`AppState`) as the class `Session.AppSession`,
  whose methods save the key, clear the form, display a listing, refresh
  the statistics and run a whole generation.

Each platform's exchange with the service is an input: `exchanges[i]` is
what the service answered to `Prompt.BuildGeminiPrompt(p, Platforms[i])`.
The three platform calls run at the same time, and each appends its
listing when it finishes. The model therefore takes the completion order
as an input: a permutation of the platform indices. It proves that the
listings come out in that order, that each platform's listing appears
exactly once, and that the word total does not depend on the order. It
does not claim that listings come out in platform order. The error lines
do follow platform order, as the source builds them after every call has
settled.

Modules:

| file | module | what it holds |
|---|---|---|
| `wrappers.dfy` | `Wrappers` | `Option`, `Result` |
| `text.dfy` | `Text` | JavaScript `trim()`, whitespace, infix, `\b\w` title case, ASCII case mapping, decimal numerals, UTF-16 length |
| `words.dfy` | `Words` | `split(/\s+/)` and the non-empty word count |
| `price.dfy` | `Price` | `parseInt` and en-US digit grouping (`toLocaleString()`) |
| `property.dfy` | `Property` | the form, the property record, `gatherPropertyInfo` |
| `prompt.dfy` | `Prompt` | platforms, style instructions, platform requirements, `buildGeminiPrompt` |
| `demo.dfy` | `Demo` | `generateDemoListing` |
| `response.dfy` | `Response` | the service exchange and its classification |
| `validation.dfy` | `Validation` | the API-key check and the required-field loop |
| `permutations.dfy` | `Permutations` | completion orders and picking by them |
| `session.dfy` | `Session` | `AppState` and the operations that change it |

## Model

| member | source | states |
|---|---|---|
| Text.TrimStart | js/app.js:83 | the result is a suffix of the input, everything dropped is whitespace, and the result does not start with whitespace |
| Text.TrimEnd | js/app.js:83 | the result is a prefix of the input, everything dropped is whitespace, and the result does not end with whitespace |
| Text.Trim | js/app.js:83 | `trim()` is `TrimEnd` after `TrimStart`; `TrimIsSlice`, `TrimEnds` and `TrimEmpty` state what it returns |
| Text.TrimIsSlice | js/app.js:348 | `trim()` returns the contiguous slice of the input left after the leading whitespace |
| Text.TrimEnds | js/app.js:348 | a non-empty trimmed string begins and ends with a non-whitespace character |
| Text.TrimEmpty | js/app.js:503 | a value trims to the empty string exactly when it is all whitespace |
| Text.HyphensToSpaces | js/app.js:228 | `replace(/-/g, ' ')` keeps the length and turns every hyphen, and only hyphens, into a space |
| Text.AsciiUpper | js/app.js:374 | `toUpperCase()` maps every character by the upper-case mapping and keeps the length |
| Text.AsciiLower | js/app.js:504 | `toLowerCase()` maps every character by the lower-case mapping and keeps the length |
| Text.TitleCase | js/app.js:371 | `replace(/\b\w/g, toUpperCase)` upper-cases exactly the word characters that start a word and leaves all others unchanged |
| Text.NatToStringRoundTrip | js/app.js:550-553 | the decimal numeral of a count reads back as that count |
| Text.Utf16Length | js/app.js:351 | a string's `.length` in UTF-16 code units lies between its character count and twice that |
| Text.JoinedPartIsInfix | js/app.js:228 | every part of a `join` appears in the joined text |
| Words.WordCountIsTokenCount | js/app.js:433-435 | counting the non-empty pieces of `split(/\s+/)` is the same as counting the maximal runs of non-whitespace |
| Words.SplitOnWhitespace | js/app.js:434 | a split always yields at least one piece |
| Words.WordCount | js/app.js:433-435 | the non-empty pieces of `split(/\s+/)`; `WordCountIsTokenCount` proves this is the number of maximal non-whitespace runs |
| Price.ParseIntOfNumeral | js/app.js:234 | `parseInt` of a decimal numeral gives back its value |
| Price.ParseInt | js/app.js:234 | `parseInt` with leading whitespace, one sign, an optional `0x` prefix and the longest digit run; `ParseIntOfNumeral` proves it reads a decimal numeral back as its value |
| Price.GroupThousandsRemovable | js/app.js:234 | removing the commas from a grouped number gives back its digits |
| Price.GroupThousandsCommas | js/app.js:234 | in a grouped number, commas sit exactly at every fourth place from the right |
| Price.FormatPriceOfNumeral | js/app.js:234 | the price of a decimal numeral prints as that numeral with thousands separators |
| Price.FormatPrice | js/app.js:234 | `parseInt(price).toLocaleString()`; `FormatPriceOfNumeral`, `GroupThousandsRemovable` and `GroupThousandsCommas` state its output |
| Property.GatherPropertyInfo | js/app.js:195-216 | every defaulted field keeps a filled-in form value or takes its default, no field is empty, the address joins the four address parts, and the features pass through |
| Property.FieldsFollowForm | js/app.js:202-214 | a record whose fields are `value \|\| default` has no empty field and keeps exactly the filled-in values |
| Prompt.StyleInstructionFallback | js/app.js:227 | an unknown listing style gets the professional instruction, and only "professional" or an unknown style gets it |
| Prompt.StyleInstruction | js/app.js:219-227 | the intended style lookup; `StyleInstructionFallback` proves it total with the professional fallback, and `StyleLookupAsWritten` relates it to the lookup as written |
| Prompt.StyleLookupAsWritten | js/app.js:219-227 | the plain object lookup agrees with the intended lookup on every name the object does not inherit |
| Prompt.StyleLookupCounterexample | js/app.js:227 | the inherited name "toString" is not a listing style, yet the lookup as written does not fall back to the professional instruction |
| Prompt.PlatformRequirementsCases | js/app.js:263-274 | each listed platform name selects its own requirements, and exactly the other names get the balanced default |
| Prompt.ListedPlatformsHaveOwnRequirements | js/app.js:14-18 | none of the three configured platforms falls through to the default requirements |
| Prompt.PlatformRequirements | js/app.js:263-274 | the `switch` on the platform name; `PlatformRequirementsCases` proves each case in both directions |
| Prompt.HumanisedFeatures | js/app.js:228 | every feature is rendered with its hyphens turned into spaces, in order |
| Prompt.FeaturesTextShape | js/app.js:228 | the features text holds no hyphen, contains every humanised feature, and is "Standard home features" when none is checked |
| Prompt.FeaturesText | js/app.js:228 | the humanised features joined by ", ", or "Standard home features"; `FeaturesTextShape` states its shape |
| Prompt.WithUnit | js/app.js:238-241 | a measurement gets its unit appended unless it is "Not specified", which is left as it is |
| Prompt.BuildGeminiPrompt | js/app.js:218-261 | the prompt template filled in; `PromptMentions`, `PromptListsDetails`, `PromptListsMeasures` and `PromptListsExtras` state every value it carries |
| Prompt.IntroMentions | js/app.js:230 | the first line contains the platform name and the platform focus |
| Prompt.BasicsMention | js/app.js:233-237 | the details lines contain the address, the price after "$", the type, the bedrooms and the bathrooms |
| Prompt.MeasuresMention | js/app.js:238-241 | the measures lines contain the square footage, the lot size, the year built and the garage values they are given |
| Prompt.ExtrasMention | js/app.js:242-245 | the extras lines contain the neighborhood, the features text, the special features and the additional notes |
| Prompt.ClosingMentions | js/app.js:247-250 | the closing contains the writing-style paragraph and the platform requirements paragraph |
| Prompt.PromptMentions | js/app.js:230-250 | the prompt names the platform and its focus, and contains the style instruction chosen by the record's style and the requirements chosen by the platform's name |
| Prompt.PromptListsDetails | js/app.js:233-237 | the prompt contains the address, "$" followed by the formatted price, the property type, the bedrooms and the bathrooms verbatim |
| Prompt.PromptListsMeasures | js/app.js:238-241 | the prompt contains the year built, and the square footage and lot size followed by " sq ft" and the garage followed by " spaces", each left bare when it reads "Not specified" (with the `WithUnit` contract) |
| Prompt.PromptListsExtras | js/app.js:242-245 | the prompt contains the neighborhood, the humanised features text, the special features and the additional notes verbatim |
| Demo.FeatureBulletLines | js/app.js:371 | every feature becomes one bullet line, in order |
| Demo.FeatureBulletHasNoHyphen | js/app.js:371 | a bullet line holds no hyphen |
| Demo.FeatureBulletsShape | js/app.js:370-372 | the bullet block holds no hyphen, contains every bullet line, and is the single standard bullet when no feature is checked |
| Demo.FeatureBullets | js/app.js:370-372 | the bullet lines joined by newlines, or the standard bullet; `FeatureBulletsShape` states its shape |
| Demo.NeighborhoodFallbackUnused | js/app.js:386 | after the form defaults have been applied, the `'neighborhood'` fallback of the demo listing never takes effect |
| Demo.GenerateDemoListing | js/app.js:369-402 | the demo template filled in; `DemoMentions`, `DemoListsRooms`, `DemoListsFeatures` and `DemoListsHighlights` state every value it carries |
| Demo.DemoIntroMentions | js/app.js:374-378 | the opening contains the upper-cased type, the demo marker, the type as entered and the address |
| Demo.DemoRoomsMention | js/app.js:378-380 | the rooms paragraph contains the bedrooms, the bathrooms, the square footage and the price after "$" |
| Demo.DemoFeaturesMention | js/app.js:382-386 | the features block contains the bullets and the neighborhood |
| Demo.DemoHighlightsMention | js/app.js:388-392 | the highlights contain the year built, the lot size with " sq ft", the garage with " spaces" and the special features |
| Demo.DemoMentions | js/app.js:374-395 | the demo listing carries the demo marker and names the platform, the property type both upper-cased and as entered, and the address |
| Demo.DemoListsRooms | js/app.js:378-380 | the demo listing contains the bedrooms, the bathrooms, the square footage and "$" followed by the formatted price |
| Demo.DemoListsFeatures | js/app.js:382-386 | the demo listing contains the feature bullets and the neighborhood shown for the record |
| Demo.DemoListsHighlights | js/app.js:388-392 | the demo listing contains the year built, the lot size followed by " sq ft", the garage followed by " spaces" and the special features |
| Demo.DemoListsEveryFeature | js/app.js:370-383 | every checked feature's bullet line appears in the demo listing |
| Response.StatusMessageCases | js/app.js:315-329 | 401, 403 and 429 have their own messages; any other failing status gives "API Error (status)", followed by the service's message exactly when it sent one |
| Response.StatusMessage | js/app.js:315-329 | the message for a failing status; `StatusMessageCases` states every case |
| Response.BodyErrorMessage | js/app.js:316-325 | the service's error message when the body parses and carries a non-empty one, otherwise none (an unparsable body counts as `{}`), so a message it yields is never empty; `StatusMessageCases` states that it is appended exactly then |
| Response.ClassifySuccessIff | js/app.js:315-352 | a call succeeds exactly when the status is OK, the first candidate has content, it was not filtered for safety, its first part has text, and the trimmed text is at least 50 UTF-16 units; the accepted text is that trimmed text |
| Response.Classify | js/app.js:304-352 | the outcome of one exchange; `ClassifySuccessIff` proves it succeeds exactly on acceptable replies, with the trimmed text |
| Response.ClassifyCandidates | js/app.js:332-352 | the checks on the reply body in their source order; `ClassifySuccessIff` states when they all pass |
| Response.LongTrimmedText | js/app.js:348-352 | trimmed text that passes the 50-unit check is a non-empty slice of what the service sent, with no whitespace at either end; with the row above, this is the shape of every accepted listing |
| Response.FailureMessageNonEmpty | js/app.js:315-351 | every failure the function itself raises carries a non-empty message |
| Validation.ValidateApiKeyAccepts | js/app.js:83-95 | a key is accepted exactly when its trimmed form starts with "AIza" and is at least 30 units long; the stored key is the trimmed input; the empty-key message is given exactly for a blank input |
| Validation.ValidateApiKey | js/app.js:83-95 | the key check on the trimmed input; `ValidateApiKeyAccepts` states it in both directions |
| Validation.CheckTrimmedKeyAccepts | js/app.js:87-95 | a trimmed key passes exactly when it starts with "AIza" and is at least 30 units long, is then kept unchanged, and gets the empty-key message exactly when it is empty |
| Validation.ValidateApiKeyIdempotent | js/app.js:83-98 | an accepted key passes the check again unchanged |
| Validation.HumaniseShape | js/app.js:504 | spacing a field name inserts exactly one space per capital, and changes nothing in a name without capitals |
| Validation.HumanisedIsLowerCase | js/app.js:504 | the name the message shows holds no capital letter |
| Validation.SpaceBeforeCapitals | js/app.js:504 | `replace(/([A-Z])/g, ' $1')`; `HumaniseShape`, `SpaceBeforeEachCapital` and `HumaniseOnlyInsertsSpaces` state that it inserts one space before each capital and nothing else |
| Validation.HumaniseFieldName | js/app.js:504 | the spaced name lower-cased; `HumaniseOnlyInsertsSpaces`, `HumanisedIsLowerCase`, `LowerNameUnchanged` and `TwoWordNameRead` state what it shows |
| Validation.HumaniseOnlyInsertsSpaces | js/app.js:504 | with the spaces taken out, the spaced name is the name and the shown name is the name in lower case, so every character is kept in order |
| Validation.SpaceBeforeEachCapital | js/app.js:504 | in the spaced name, a space stands right before every capital |
| Validation.LowerNameUnchanged | js/app.js:504 | a name without capitals, such as "address" or "price", is shown as it is |
| Validation.TwoWordNameRead | js/app.js:504 | a two-word camel-case name is shown as its first word, a space and its second word in lower case, so "zipCode" reads "zip code" and "propertyType" reads "property type" |
| Validation.MissingFieldMessage | js/app.js:504 | the blank-field message; `MissingFieldMessageNames` states that it names the field in its humanised form |
| Validation.MissingFieldMessageNames | js/app.js:504 | the blank-field message contains the humanised field name |
| Validation.FirstMissingField | js/app.js:499-507 | no field is reported exactly when all required fields are filled in; a reported field is the first one, in the listed order, that is blank |
| Permutations.PermutationBounds | js/app.js:527-530 | a completion order has one entry per platform, every entry names a platform, and every platform appears |
| Permutations.PickPermutation | js/app.js:425 | taking listings in a completion order rearranges them without losing or repeating one |
| Session.TotalWordsAppend | js/app.js:425-426 | displaying a listing raises the word total by that listing's words |
| Session.TotalWordsPermutation | js/app.js:431-437 | the word total does not depend on the order of the listings |
| Session.TotalWords | js/app.js:433-435 | the `reduce` over the listings' word counts; `TotalWordsAppend` and `TotalWordsPermutation` state how it grows and that order does not matter, and `UpdateStats` computes it with the loop |
| Session.ListingFor | js/app.js:354-362 | a platform's listing carries the platform's name, and a failed call's listing contains the demo marker |
| Session.ListingForCases | js/app.js:348-362 | the listing is the offered text, trimmed, exactly when the reply is acceptable, and otherwise the demo listing for that platform and record |
| Session.CallResult | js/app.js:357-365 | a call resolves to `{error: message}` exactly when the reply is classified as a failure, and to nothing otherwise; `ClassifySuccessIff` states when that is |
| Session.RunListingsOrderFree | js/app.js:425 | whatever the completion order, every platform's listing is displayed exactly once and the word total is the same |
| Session.SettledAll | js/app.js:531 | once every call of a completion order has completed, every platform's result is in, whatever the order |
| Session.ReportedPositions | js/app.js:534-540 | the positions that produce an error line hold a result with a non-empty message, and they increase |
| Session.ReportedPositionsComplete | js/app.js:534-540 | every result with a non-empty message has a position, so no reported error is skipped |
| Session.Reported | js/app.js:537 | a settled result produces an error line when it holds a non-empty message; `FailureMessageNonEmpty` states that every failure the call raises itself has one |
| Session.ErrorLinesAtPositions | js/app.js:534-540 | the error lines are "name: message", one per reported position and in platform order |
| Session.ErrorLinesCount | js/app.js:534-540 | there is exactly one error line per reported error |
| Session.ErrorLines | js/app.js:534-540 | the error lines built from the settled results; `ErrorLinesAtPositions` and `ErrorLinesCount` state which lines, in which order |
| Session.PartialSuccessMessage | js/app.js:552 | the message of a partly failed run opens with the number of listings generated and names the number of calls that had issues, each as a whole numeral that `NatToStringRoundTrip` reads back, and it is never the all-successful message |
| Session.ReportedCountBounds | js/app.js:534-540 | the error count is at most the platform count; it is zero exactly when no call reported an error, and full exactly when every call did |
| Session.RunSummaryAllSuccessful | js/app.js:549-550 | the run ends with "All listings generated successfully!" exactly when no call reported an error |
| Session.RunSummaryAllDemo | js/app.js:553-554 | the run ends with the all-demo error exactly when every call reported an error |
| Session.RunSummarySucceeds | js/app.js:549-555 | the run ends with a success message exactly when at least one call succeeded |
| Session.RunSummary | js/app.js:549-555 | the closing message for an error count; `RunSummaryAllSuccessful`, `RunSummaryAllDemo` and `RunSummarySucceeds` state which message each outcome gets |
| Session.AppSession.constructor | js/app.js:2-7 | the key is the stored key or null when none is stored, the model is the stored model or "gemini-1.5-flash", and there are no listings |
| Session.AppSession.SaveApiConfig | js/app.js:82-106 | an accepted key is stored trimmed along with the model; a refused key leaves the state as it was and shows the refusal |
| Session.AppSession.ApplyKeyCheck | js/app.js:86-104 | given the key check's outcome: a refusal is shown and changes nothing; an accepted key and the selected model are stored, the listings untouched |
| Session.AppSession.ClearForm | js/app.js:108-118 | a confirmed clear empties the listings and leaves the key and model alone; an unconfirmed one changes nothing |
| Session.AppSession.UpdateStats | js/app.js:431-437 | the statistics show the listing count and the sum of the listings' word counts |
| Session.AppSession.DisplayListing | js/app.js:404-429 | exactly one listing is appended, and the word total grows by its words |
| Session.AppSession.GenerateAIListing | js/app.js:276-366 | a call appends exactly one listing, the accepted text or the demo listing, and resolves to the failure message instead of propagating it |
| Session.AppSession.CompleteCall | js/app.js:527-530 | one platform's call appends that platform's listing and settles to that platform's result |
| Session.AppSession.CompleteCalls | js/app.js:527-532 | the calls append their listings in completion order and settle to each platform's result, indexed by platform |
| Session.CollectErrors | js/app.js:534-540 | the errors loop collects exactly the error lines, in platform order |
| Session.AppSession.RunGeneration | js/app.js:513-573 | a run resets the listings, ends with the platform listings in completion order and the error lines in platform order, closes with the summary for that error count, and clears the busy flag |
| Session.AppSession.HandleFormSubmit | js/app.js:489-574 | without a key, or with a required field blank, nothing changes and the matching message is shown; otherwise the run takes place on the record built from the form, ends idle, and closes with the summary for the number of failed calls |

## Left out

- Network, JSON parsing and the request envelope: each platform's exchange with the service is a parameter (`Response.Exchange`). The URL built from the model and key (js/app.js:277), the request body and the retry settings are not part of this model.
- Concurrency: the completion order of the three calls is a parameter, a permutation of the platform indices.
- Session.AppSession.RunGeneration: a run is modelled as one step that no other handler interleaves with, so the model assumes that no `clearForm` runs between a run's start and its last completion. In the source only the generate button is disabled during a run (js/app.js:158-163), so a confirmed `clearForm` (js/app.js:108-118) can run while calls are pending. It empties `AppState.listings`, and the calls still pending then push onto the emptied list (js/app.js:425). The listings then hold only the platforms whose calls finished after the clear, and "every platform's listing appears exactly once" no longer holds; the error lines and the closing summary are unaffected. The same holds for `Session.AppSession.HandleFormSubmit`, which runs `RunGeneration`.
- The DOM, `localStorage`, `confirm`, the clipboard, timing, the scroll, the console, the message banners' display and auto-hide, and the random listing ids: the model keeps only the state that the rules read, and the message each operation shows.
- `exportAllListings` (js/app.js:120-156) is not part of this model. Its word total (js/app.js:141) counts every `split(/\s+/)` piece, empty ones included, so it can differ from the statistics panel's total for text with leading or trailing whitespace and for empty text.
- The second `displayListing` (js/app.js:592-622) replaces the first; the two differ only in markup, so one `DisplayListing` models both.
- Text.AsciiUpper and Text.AsciiLower: case mapping is modelled for ASCII letters only; other letters are left unchanged.
- Price: prices above 2^53 lose precision in JavaScript numbers, and that rounding is not modelled; grouping is for the en-US locale only. A negative zero keeps its sign, so "-0" prints as "-0" as in JavaScript.
- Response: JSON fields of an unexpected type, such as a number where text is expected or a null candidate, are not modelled; every field is either absent or has its expected type.
- The `rejected` branch of the errors loop (js/app.js:535-536) and the unexpected-error handler (js/app.js:568-570) cannot be reached, because `generateAIListing` catches every failure; the model has no path to them.
- Prompt.BuildGeminiPrompt: the prompt uses the corrected style lookup `StyleInstruction`, so for the twelve names inherited from `Object.prototype` (see "## Findings") it holds the professional paragraph where the source would interpolate the inherited member. `StyleLookupAsWritten` models the lookup as written.
- Prompt.FeaturesTextShape: this states that every humanised feature appears in the text, but not that the text is exactly those features joined by ", ". The exact form is the definition `FeaturesText` itself.
- Property: a form with repeated keys keeps only the last value (`Object.fromEntries`); the model takes the form as a map that already holds one value per key.

## Findings

| source | as written | input that shows it | evidently intended | confidence | as-written member | corrected member |
|---|---|---|---|---|---|---|
| js/app.js:227 | `styleInstructions[propertyData.listingStyle]` looks the style up on a plain object, so names inherited from `Object.prototype` are found | listing style "toString" yields the function `Object.prototype.toString`, which is interpolated into the prompt in place of the professional instruction | any style other than the five listed falls back to the professional instruction | not executed | Prompt.StyleLookupAsWritten, Prompt.StyleLookupCounterexample | Prompt.StyleInstruction, Prompt.StyleInstructionFallback |
