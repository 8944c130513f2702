# Mobilization cost estimator — Dafny model

The application is a single-page cost estimator for sending engineers on an overseas
assignment. Its logic lives in `src/App.tsx`. It reads every amount the user types through the
numeric coercion `num`. It checks a restored or imported JSON value with `isScenario` and
normalises it with `sanitizeScenario`. From the scenario it derives a cascade of totals: airfare,
visas/security/insurance, local transport, per-diem, per-role labour, taxes, contingency, the
grand total and an optional conversion. It edits the leg and role lists, and builds export file
names and escaped HTML text.

This project models that logic as pure Dafny functions over datatypes, with lemmas that state
what each piece promises. The source is expression-only: `map`, `filter`, `reduce` and `replace`
chains, with no loops or in-place updates. So there are no classes or methods.

| file | module | models |
|---|---|---|
| `wrappers.dfy` | `Wrappers` | `Option` |
| `jstext.dfy` | `JsText` | character classes: digits, `[a-z0-9]`, the white space `trim` removes |
| `json.dfy` | `JsonValues` | the untyped value `JSON.parse` returns, and property lookup |
| `coercion.dfy` | `Coercion` | `num`, with JavaScript's `Number()` as a parameter |
| `validation.dfy` | `Validation` | `isRecord` and `isScenario`, and a table-driven schema proved equal to it |
| `sanitizer.dfy` | `Sanitizer` | `sanitizeScenario`, with `crypto.randomUUID` as a sequence of ids |
| `scenario.dfy` | `Scenarios` | the typed `Scenario` record, `defaultStaff` and `initial` |
| `engine.dfy` | `Engine` | the cost cascade and `laborBreakdown` |
| `edits.dfy` | `Edits` | `addLeg`, `rmLeg`, `addRole` and `rmRole` |
| `export.dfy` | `Export` | `escapeHtml`, `safeFileName` and the two download names |

`Number()` is a parameter `parse: string -> JsNumber`, which returns a finite real, NaN or an
infinity. The predicate `Coercion.FollowsJsNumber` states the facts about it that the worked
examples need:
- a plain decimal literal reads as its value;
- the empty string reads as 0;
- text that starts with a character no numeric literal can start with reads as NaN.

Amounts are `real`; no IEEE-754 rounding is modelled.

## Model

| member | source | states |
|---|---|---|
| `Coercion.Num` | src/App.tsx:48 | `num` itself, with `Number()` as a parameter; what it returns is stated by `Coercion.NumIsParsedOrZero` |
| `Coercion.NumIsParsedOrZero` | src/App.tsx:48 | `num` is the parsed value when `Number()` gives a finite number, and 0 otherwise (text, NaN, infinities) |
| `Coercion.NumOfDecimal` | src/App.tsx:48 | a plain decimal literal such as "7.5" is read as its decimal value |
| `Coercion.NumOfDigits` | src/App.tsx:48 | a string of digits is read as the integer it spells |
| `Coercion.NumOfNonNumeric` | src/App.tsx:48 | the empty string and text starting with a non-numeric character are read as 0 |
| `Coercion.DecimalWithFraction` | src/App.tsx:48 | `i.f` denotes `i + f / 10^len(f)` |
| `Validation.IsScenario` | src/App.tsx:74-92 | `isScenario` itself, one early-return test per section; its meaning is stated by `Validation.IsScenarioMatchesSchema` and the lemmas below |
| `Validation.IsScenarioMatchesSchema` | src/App.tsx:74-92 | `isScenario` holds exactly when the value is an object and every section and list element has each listed property with the listed type, with `personalTax` absent or well formed |
| `Validation.ScenarioSectionsFit` | src/App.tsx:77-91 | an accepted value has every required property of every section with its type |
| `Validation.ScenarioItemsFit` | src/App.tsx:78-80 | every staffing element of an accepted value has text `id` and `role`; every leg has text `id`, `from`, `to` and `airfare` |
| `Validation.SectionPropertyRequired` | src/App.tsx:77-91 | replacing any required section property by a missing or wrongly typed value makes the whole value rejected |
| `Validation.TopLevelPropertyRequired` | src/App.tsx:74-91 | a missing or null top-level section makes the value rejected |
| `Validation.StaffingIdentityRequired` | src/App.tsx:78 | a staffing element whose `id` or `role` is not text makes the value rejected |
| `Validation.PersonalTaxOptional` | src/App.tsx:86-88 | removing `personalTax` from an accepted value keeps it accepted |
| `Validation.MalformedPersonalTaxRejected` | src/App.tsx:86-88 | a present but malformed `personalTax` makes the value rejected |
| `Validation.StaffingNumbersUnchecked` | src/App.tsx:78 | replacing any staffing property other than `id` and `role` by any JSON value keeps an accepted value accepted |
| `Validation.ScenarioHasTopLevel` | src/App.tsx:74-91 | an accepted value has every required top-level section, and none is null |
| `Sanitizer.Sanitize` | src/App.tsx:94-105 | `sanitizeScenario` itself, with `crypto.randomUUID` as an id source; the lemmas below state what it does |
| `Sanitizer.SanitizeAccepted` | src/App.tsx:94-105 | sanitising an accepted value gives an accepted value |
| `Sanitizer.SanitizeStaffingAt` | src/App.tsx:96 | staffing keeps its length and order; a non-empty id is kept; an empty id becomes the next generated id |
| `Sanitizer.SanitizeLegAt` | src/App.tsx:97-100 | legs keep their length and order; a non-empty id is kept; empty ids take the generated ids after those used for staffing |
| `Sanitizer.FillIdsKeepsOtherProperties` | src/App.tsx:96-99 | filling an id changes no other property of the element |
| `Sanitizer.SanitizePersonalTax` | src/App.tsx:101-104 | `personalTax` holds exactly the two consultancy fees; each is "0" when `personalTax` was absent and is kept otherwise |
| `Sanitizer.SanitizeKeepsRest` | src/App.tsx:94-100 | every other top-level property and every other routing property is unchanged |
| `Sanitizer.SanitizeIdempotent` | src/App.tsx:94-105 | with non-empty generated ids, sanitising twice gives the result of sanitising once, whatever ids the second pass could draw |
| `Sanitizer.SanitizeUniqueIds` | src/App.tsx:94-100 | when the non-empty ids of each input list are already pairwise distinct and the generated ids are non-empty, distinct and unlike any input id, every id of the result is non-empty and the ids of each list are pairwise distinct; `sanitizeScenario` itself never repairs duplicate ids |
| `Sanitizer.FillIdsNoBlank` | src/App.tsx:96-99 | a list without empty ids is left unchanged |
| `Engine.Derive` | src/App.tsx:178-220 | the cascade of `useMemo` totals itself; the lemmas below state each step |
| `Engine.AirfareTotalIsSum` | src/App.tsx:178 | the airfare fold equals the sum of the coerced fares, 0 for no legs |
| `Engine.AirfareTotalAppend` | src/App.tsx:178 | one more leg adds exactly its coerced fare |
| `Engine.MaxDaysIsMaximum` | src/App.tsx:181 | the longest stay is at least 0 and at least every role's `onsiteDays`, is 0 or one of them, and is 0 for no staffing |
| `Engine.FoldMaxDaysAppend` | src/App.tsx:181 | one more role makes the longest stay the larger of the old one and its days |
| `Engine.MaxDaysOfSublist` | src/App.tsx:181 | a sub-list of the staffing never has a longer stay |
| `Engine.NoCarOnlyTrain` | src/App.tsx:187-189 | without the car, local transport is the train fare alone and rental is 0 |
| `Engine.LaundryWeeks` | src/App.tsx:194 | the weeks billed are the least whole number of weeks covering the stay |
| `Engine.LaborBreakdownRows` | src/App.tsx:199-210 | one row per role, in order, with its id, role and quantity and total `perHead * qty` |
| `Engine.LaborTotalIsSum` | src/App.tsx:211 | the labour total is the sum of the role totals, 0 for no staffing |
| `Engine.LaborTotalAppend` | src/App.tsx:211 | one more role adds exactly its total |
| `Engine.WeekendPremiumNonNegative` | src/App.tsx:204-205 | the weekend premium is never negative for non-negative days, hours and rate, and is 0 when the multiplier is at most 1 |
| `Engine.TravelTimeOnlyWhenIncluded` | src/App.tsx:206-207 | travel time counts only when `includeTravelTime` is set |
| `Engine.DefaultStaffTotal` | src/App.tsx:107-121 | the default role bills 9600 on site plus 2400 travel time, 12000 in all |
| `Engine.LaborOnlyTaxNotLarger` | src/App.tsx:215-216 | with a non-negative rate and non-negative other components, tax on labour only is at most tax on the full base, and strictly less when both are positive |
| `Engine.DeriveTaxToggle` | src/App.tsx:214-216 | the toggle picks labour alone or labour + per-diem + travel-fixed + personal tax as base, and the labour-only tax is not larger |
| `Engine.TaxBeforeContingency` | src/App.tsx:217-219 | the subtotal includes the taxes; contingency is a share of that subtotal; the grand total is `subtotal * (1 + pct/100)` |
| `Engine.ConvertedIffShowTarget` | src/App.tsx:220 | a converted total exists exactly when `showTarget` is set, and is then the grand total times the coerced rate |
| `Engine.UnparseableRateConvertsToZero` | src/App.tsx:220 | a rate that does not parse to a finite number converts to 0 |
| `Engine.TextRateConvertsToZero` | src/App.tsx:220 | the rate "abc" converts to 0 |
| `Engine.InitialTotals` | src/App.tsx:123-147 | the initial scenario costs 1600 airfare, a 10-day stay, 265 visas/security/insurance, 60 local transport, 2220 per-diem, 12000 labour, no tax, a 17355.875 grand total and no conversion |
| `Engine.InitialAllowancesCost` | src/App.tsx:192-196 | the initial allowances over a 10-day stay come to 2220: hotel, meals and incidentals per day, and laundry for 2 weeks |
| `Engine.InitialVisasSecurityInsuranceCost` | src/App.tsx:179-183 | the initial visa, security and insurance costs over 10 days are 120, 0 and 145 |
| `Edits.AddLeg` | src/App.tsx:315 | `addLeg` itself; stated by `Edits.AddLegKeepsTotals` |
| `Edits.RmLeg` | src/App.tsx:316 | `rmLeg` itself; stated by `Edits.RmLegMembers` and `Edits.RmLegAirfare` |
| `Edits.AddRole` | src/App.tsx:317 | `addRole` itself; stated by `Edits.AddRoleTotals` |
| `Edits.RmRole` | src/App.tsx:318 | `rmRole` itself; stated by `Edits.RmRoleMembers` and `Edits.RmRoleLabor` |
| `Edits.AddLegKeepsTotals` | src/App.tsx:315 | adding a leg appends exactly one leg, `{id, from: "", to: "", purpose: "", airfare: "0"}`, after the earlier legs, changes nothing else, and leaves every total unchanged |
| `Edits.RmLegMembers` | src/App.tsx:316 | after removing a leg, a leg remains exactly when it was there and has another id; nothing else changes; removing twice is removing once |
| `Edits.RmLegAirfare` | src/App.tsx:316 | removing the one leg with a given id splices it out, keeping the other legs in order, and takes exactly its fare off the airfare total |
| `Edits.AddRoleTotals` | src/App.tsx:317 | adding a role appends exactly one role, the default role with the new id and the name "Engineer", after the earlier roles; nothing else changes; labour grows by 12000 and the stay becomes at least 10 days |
| `Edits.RmRoleMembers` | src/App.tsx:318 | after removing a role, a role remains exactly when it was there and has another id; nothing else changes; removing twice is removing once; the stay never gets longer |
| `Edits.RmRoleLabor` | src/App.tsx:318 | removing the one role with a given id splices it out, keeping the other roles in order, and takes exactly its total off the labour total |
| `Edits.WithoutUnique` | src/App.tsx:316-318 | filtering out an id held by exactly one element removes exactly that element |
| `Export.EscapeHtml` | src/App.tsx:58-64 | `escapeHtml` itself, five replace-all steps with the ampersand first; stated by the three lemmas below |
| `Export.EscapeHtmlIsEscapeEach` | src/App.tsx:58-64 | the chain of five replacements, ampersand first, escapes each character independently |
| `Export.EscapeHtmlNoMarkup` | src/App.tsx:58-64 | escaped text contains no raw `<`, `>`, `"` or `'` |
| `Export.UnescapeEscapeHtml` | src/App.tsx:58-64 | decoding the five entities gives back the original text |
| `Export.SafeFileName` | src/App.tsx:66-69 | `safeFileName` itself: trim, lower-case, hyphenate runs, strip hyphens at both ends, join the suffix, collapse hyphen runs; stated by the lemmas below |
| `Export.SafeFileNameAlphabet` | src/App.tsx:66-69 | with a suffix in `[a-z0-9-]`, the file name is in `[a-z0-9-]` |
| `Export.SafeFileNameNoDoubleHyphen` | src/App.tsx:66-69 | the file name never holds two hyphens in a row |
| `Export.SafeFileNameNoLeadingHyphen` | src/App.tsx:66-69 | the file name does not start with a hyphen when the suffix does not |
| `Export.SafeFileNameBareSuffix` | src/App.tsx:66-69 | a title without letters or digits leaves the bare suffix |
| `Export.SafeFileNameKeepsAlnums` | src/App.tsx:66-69 | the letters and digits of the name are those of the lower-cased, trimmed title followed by those of the suffix |
| `Export.NameBaseShape` | src/App.tsx:67 | the title part is in `[a-z0-9-]`, has no double hyphen and neither starts nor ends with one |
| `Export.SafeFileNameOfLowerAlnum` | src/App.tsx:66-69 | a title already in `[a-z0-9]` is joined to the suffix by one hyphen |
| `Export.UntitledFileNames` | src/App.tsx:264 | an untitled scenario's downloads are named "mobilization-" followed by the suffix |

## Left out

- The React component tree, tabs and field editors, and `fmt`'s `Intl.NumberFormat`: these are presentation.
- `localStorage` restore and save, the `FileReader` backup import, and Blob/anchor downloads: these are browser I/O. The model covers the checks they apply: `isScenario` followed by `sanitizeScenario`.
- `JSON.parse` is not modelled: its output is the `Json` datatype.
- JavaScript's `Number()` grammar is not modelled: it is a parameter constrained by `FollowsJsNumber`.
- `crypto.randomUUID` is an id source `gen: nat -> string`. The n-th call returns `gen(n)`, staffing ids are drawn before leg ids, and each new leg or role takes its id as an argument.
- IEEE-754 rounding, `toFixed(2)` and the HTML document assembly in `exportToExcel` are not modelled. Amounts are exact reals.
- `Engine.Derive`: the engine reads a typed `Scenario`. `isScenario` checks only the properties `Validation` lists, so a restored or imported scenario can hold any JSON value in the others, and the typed engine does not represent those values. They are:
  - the staffing numbers `qty`, `onsiteHoursPerDay`, `onsiteDays`, `travelHours`, `overtimeHoursPerDay` and `weekendDays`, where text gives NaN and null gives 0 in JavaScript;
  - `localTransport.carDays`, so `carRental` can be NaN or 0 in the same way;
  - the flag `includeTravelTime`, which the engine tests only for truthiness;
  - the text fields `num` reads without a check: `billableHourly`, `travelHourly`, `overtimeMultiplier`, `weekendMultiplier`, `carDailyRate`, `distanceKm`, `fuelPricePerL`, `consumptionLPer100`, `tolls`, `parking` and `carExtraFees`. The model applies `Number()` to strings only.
- `Sanitizer.Sanitize` requires `Sanitizable`, which is weaker than `isScenario`: it needs text ids in both lists, a routing object and a well-formed `personalTax` when one is present. The source only sanitises accepted values, so every call it makes is covered.
- `Export.LowerChar`: `toLowerCase` is modelled only for what the `[a-z0-9]` step can see: ASCII capitals, U+0130 and the Kelvin sign U+212A. Every other character keeps its case. Its lower case is outside `[a-z0-9]` exactly when the character itself is, so `safeFileName` gives the same result.
- `CCY`, `STORAGE_KEY`, `tailwind.config.ts` and `vite.config.ts` are constants and build configuration with no logic.
- `maxDays` follows the code, not a plain "maximum over staffing": the fold is seeded with 0, so it is 0 when every `onsiteDays` is negative.
- `num(st.travelHours)` is the identity on the finite real `travelHours`, so `Engine.TravelPerHead` multiplies by it directly.
- The `|| 0` after `num(rate)` in `converted` changes nothing, because `num` never returns NaN.
