# ComparAuto: the two-car comparison, in Dafny

ComparAuto's comparison page lets a user pick two cars, one per card, and
compares them on six metrics. This project models three parts of that page and
proves properties of each.

- **The results view** (`CompareResults.tsx`) is pure and is modelled with functions and lemmas in `compare_results.dfy`:
  - a three-way numeric comparator;
  - the fixed table of six metrics (Prezzo, Svalutazione, Potenza, Consumi, Accelerazione, Rating);
  - the win/tie tally and the overall winner;
  - each car's three-tier recommendation text and its first two "Ideale per" pros.
- **The page's state** (`CompareContainer.tsx`, in `compare_container.dfy`):
  - the vehicle record `CarData` with its `Specs` (CompareContainer.tsx lines 12-36) is the pair of datatypes in `car_record.dfy`;
  - the mock record built for a card is a function of the id and the card number;
  - the two nullable car slots with their loading flags form a class;
  - the class's methods are `handleCarSelect` and `handleReset`, and it enforces the rule that results exist only while both slots are filled.
- **The brand / model / year picker** (`CarForm.tsx`, in `car_form.dfy`) is a class with the three selections and the searching flag. It covers:
  - the brand change that clears the model;
  - the model options derived from the brand;
  - form validity and the button's enabled state;
  - the guarded search that hands on the id `brand-model-year`.

The numeric parser `parseNumericValue` of the results view is in `numeric_text.dfy`. It deletes all non-digit, non-dot characters and then applies `parseFloat`:
- A JavaScript number is `Option<real>`, with `None` standing for NaN.
- JavaScript's `>` is false whenever either side is NaN.
- So `compareNumeric` gives `equal` as soon as either side has no number.
- Parsed values are exact decimals; IEEE doubles are not modelled.

The parser does not read a leading numeric token:
- It first deletes every character other than a digit or a dot, so digit groups are glued together. `"6.2 L/100km"` becomes `"6.2100"`, which reads as 6.21, not 6.2. A sign is deleted too.
- `parseFloat` then stops at the second dot: `"1.2.3"` reads as 1.2, and a leading dot starts a fraction, `".5"` reads as 0.5.
- A NaN on *either* side of a metric ties it, not only a NaN on both sides.
- `StripGlued` and `MockReadings` prove the gluing on the mock data; `ParseStopsAtSecondDot` and `ParseLeadingDot` prove the dot rules.
- `DoubleDotIsNaN` shows that a string with digits can still read as NaN (`"..5 CV"`).
- `NoDigitsTie` and `NaNTies` prove the either-side tie.

End to end, `MockEndToEnd` and `MockComparison` prove the result for the card-1 mock (BMW Serie 3) against the card-2 mock (Mercedes Classe C):
- all six metrics go to card 1, so the tally is 6–0–0 and card 1 is the overall winner;
- card 1 gets "Scelta consigliata";
- card 2 gets the generic "Alternativa valida" text, because its price is higher.

## Model

| member | source | states |
|---|---|---|
| NumericText.Strip | auto-comparatore/src/components/ui/compare/CompareResults.tsx:25 | the result holds only digits and dots and is no longer than the input |
| NumericText.StripAppend | auto-comparatore/src/components/ui/compare/CompareResults.tsx:25 | stripping a concatenation is the concatenation of the stripped parts |
| NumericText.StripKeepsKept | auto-comparatore/src/components/ui/compare/CompareResults.tsx:25 | a string of digits and dots is left unchanged |
| NumericText.StripDeletesOthers | auto-comparatore/src/components/ui/compare/CompareResults.tsx:25 | a string with neither digits nor dots is deleted entirely |
| NumericText.StripGlued | auto-comparatore/src/components/ui/compare/CompareResults.tsx:25 | number, unit, digits, unit strips to number followed directly by digits: digit groups are glued |
| NumericText.StripNoDigits | auto-comparatore/src/components/ui/compare/CompareResults.tsx:25 | stripping introduces no digit |
| NumericText.StripIdempotent | auto-comparatore/src/components/ui/compare/CompareResults.tsx:25 | stripping twice equals stripping once |
| NumericText.DigitRun | auto-comparatore/src/components/ui/compare/CompareResults.tsx:25 | the longest all-digit prefix: all digits, and not followed by a digit |
| NumericText.FractionDigits | auto-comparatore/src/components/ui/compare/CompareResults.tsx:25 | when a dot follows the integer part: the whole run of digits right after it (not followed by another digit); otherwise none |
| NumericText.ParseStripped | auto-comparatore/src/components/ui/compare/CompareResults.tsx:25 | `parseFloat` on digits and dots gives a number iff the text starts with a digit or with a dot and a digit; the number is never negative |
| NumericText.ParseNumericValue | auto-comparatore/src/components/ui/compare/CompareResults.tsx:24-26 | strip, then `parseFloat`: a number iff the stripped text starts with a digit or a dot and a digit, and never negative |
| NumericText.ParseNoDigits | auto-comparatore/src/components/ui/compare/CompareResults.tsx:24-26 | a string without digits reads as NaN |
| NumericText.ParseIgnoresOther | auto-comparatore/src/components/ui/compare/CompareResults.tsx:24-26 | inserting a character that is neither digit nor dot never changes the reading |
| NumericText.ParseDependsOnKept | auto-comparatore/src/components/ui/compare/CompareResults.tsx:24-26 | two strings with the same digits and dots in order read the same |
| NumericText.ParseDecimal | auto-comparatore/src/components/ui/compare/CompareResults.tsx:24-26 | "ip.fp" followed by a unit without digits or dots reads as ip + fp / 10^|fp| |
| NumericText.ParseStrippedDecimal | auto-comparatore/src/components/ui/compare/CompareResults.tsx:25 | a stripped decimal "ip.fp" reads as ip + fp / 10^|fp| |
| NumericText.DecimalSplit | auto-comparatore/src/components/ui/compare/CompareResults.tsx:25 | in "ip.fp" the integer part ends at the dot and the fraction is exactly fp |
| NumericText.DigitRunDot | auto-comparatore/src/components/ui/compare/CompareResults.tsx:25 | a run of digits followed by a dot ends at the dot |
| NumericText.SecondDotSplit | auto-comparatore/src/components/ui/compare/CompareResults.tsx:25 | in "ip.fp.rest" the integer part ends at the first dot and the fraction is exactly fp |
| NumericText.ParseStopsAtSecondDot | auto-comparatore/src/components/ui/compare/CompareResults.tsx:25 | "ip.fp" followed by a second dot and any digits and dots reads as ip + fp / 10^|fp|, either part possibly empty but not both |
| NumericText.ParseLeadingDot | auto-comparatore/src/components/ui/compare/CompareResults.tsx:25 | ".fp" reads as fp / 10^|fp| |
| NumericText.LeadingDotExample | auto-comparatore/src/components/ui/compare/CompareResults.tsx:25 | ".5" reads as 0.5 |
| NumericText.ParseStrippedNat | auto-comparatore/src/components/ui/compare/CompareResults.tsx:25 | the decimal text of i "." f reads as i + f / 10^(digits of f) |
| NumericText.NatTextValue | auto-comparatore/src/components/ui/compare/CompareResults.tsx:25 | the decimal digits of n evaluate back to n |
| NumericText.ParseNat | auto-comparatore/src/components/ui/compare/CompareResults.tsx:24-26 | round trip: the decimal text of n followed by a unit without digits or dots reads as n |
| NumericText.DoubleDotIsNaN | auto-comparatore/src/components/ui/compare/CompareResults.tsx:24-26 | "..5 CV" reads as NaN although it has a digit |
| CompareResults.CompareNumeric | auto-comparatore/src/components/ui/compare/CompareResults.tsx:18-22 | better1 iff both are numbers and the first is greater, better2 iff the second is greater, equal iff either is NaN or they are equal |
| CompareResults.CompareAntisymmetric | auto-comparatore/src/components/ui/compare/CompareResults.tsx:18-22 | swapping the arguments swaps better1 and better2 and keeps equal |
| CompareResults.CompareTies | auto-comparatore/src/components/ui/compare/CompareResults.tsx:18-22 | equal operands, or a NaN on either side, give equal |
| CompareResults.Comparisons | auto-comparatore/src/components/ui/compare/CompareResults.tsx:29-78 | the comparison table has exactly six rows |
| CompareResults.ComparisonsFollowMetrics | auto-comparatore/src/components/ui/compare/CompareResults.tsx:29-78 | each row matches the independent metric description: category in the fixed order, original values shown, and winner car1 (car2) iff its value strictly beats the other's in the metric's direction |
| CompareResults.RowFollowsMetric | auto-comparatore/src/components/ui/compare/CompareResults.tsx:29-78 | the same, for one row |
| CompareResults.MetricDirections | auto-comparatore/src/components/ui/compare/CompareResults.tsx:29-78 | only power and rating are higher-is-better; the categories are Prezzo, Svalutazione, Potenza, Consumi, Accelerazione, Rating |
| CompareResults.NaNTies | auto-comparatore/src/components/ui/compare/CompareResults.tsx:29-78 | a metric whose value is NaN on either side is a tie |
| CompareResults.NoDigitsTie | auto-comparatore/src/components/ui/compare/CompareResults.tsx:24-67 | a power, consumption or acceleration string without digits on either side makes that row a tie |
| CompareResults.ComparisonsSwap | auto-comparatore/src/components/ui/compare/CompareResults.tsx:29-78 | swapping the cars swaps every row's values and winner and keeps its category |
| CompareResults.Wins | auto-comparatore/src/components/ui/compare/CompareResults.tsx:81-83 | a count never exceeds the number of rows |
| CompareResults.WinsPartition | auto-comparatore/src/components/ui/compare/CompareResults.tsx:81-83 | better1, better2 and equal counts add up to the number of rows |
| CompareResults.WinsSwapped | auto-comparatore/src/components/ui/compare/CompareResults.tsx:81-83 | counting swapped winners equals counting the swapped tag |
| CompareResults.OverallWinner | auto-comparatore/src/components/ui/compare/CompareResults.tsx:85 | car1 iff car1Wins > car2Wins, car2 iff car2Wins > car1Wins, tie iff the counts are equal |
| CompareResults.TallyOf | auto-comparatore/src/components/ui/compare/CompareResults.tsx:81-85 | car1Wins + car2Wins + ties equals the number of rows, and the overall winner follows the wins |
| CompareResults.TallySwap | auto-comparatore/src/components/ui/compare/CompareResults.tsx:81-85 | swapping the cars swaps the win counts and the overall winner and keeps the ties |
| CompareResults.AdviceText | auto-comparatore/src/components/ui/compare/CompareResults.tsx:276-281 | the three literal recommendation texts, one per tier |
| CompareResults.Recommend | auto-comparatore/src/components/ui/compare/CompareResults.tsx:276-281 | "Scelta consigliata" iff more wins; otherwise "Opzione più economica" iff strictly cheaper; otherwise "Alternativa valida" |
| CompareResults.RecommendExclusive | auto-comparatore/src/components/ui/compare/CompareResults.tsx:276-307 | the two cars are never both recommended nor both the cheaper; equal wins and prices give both the generic text |
| CompareResults.IdealFor | auto-comparatore/src/components/ui/compare/CompareResults.tsx:286 | exactly the first min(2, |pros|) pros, in their order |
| CompareResults.CompareReport | auto-comparatore/src/components/ui/compare/CompareResults.tsx:29-312 | six rows; counts sum to six; a car is recommended iff it is the overall winner; a tie at equal price gives both the generic text; the bullets are a prefix of the pros |
| CompareResults.ReportSwap | auto-comparatore/src/components/ui/compare/CompareResults.tsx:81-307 | swapping the cars swaps the tally and exchanges the two summaries |
| CompareResults.IdenticalCarsTie | auto-comparatore/src/components/ui/compare/CompareResults.tsx:29-307 | records equal in every compared field tie 0–0–6, and both get the generic text |
| CompareResults.SweepWins | auto-comparatore/src/components/ui/compare/CompareResults.tsx:29-307 | a car ahead on every metric wins all six rows 6–0–0 and is recommended; the other gets the generic text, since being ahead on price means being cheaper |
| CompareResults.AllFirstWins | auto-comparatore/src/components/ui/compare/CompareResults.tsx:81-83 | a table won row by row by car1 counts only car1 wins |
| CompareResults.AllEqualWins | auto-comparatore/src/components/ui/compare/CompareResults.tsx:81-83 | a table tied in every row counts only ties |
| MockSpecReadings.MockReadings | auto-comparatore/src/components/ui/compare/CompareContainer.tsx:66-71 | the mock strings read as 184, 170, 6.21, 6.81, 7.1 and 7.8 |
| MockSpecReadings.ReadPower | auto-comparatore/src/components/ui/compare/CompareContainer.tsx:66 | "184 CV" reads as 184 and "170 CV" as 170 |
| MockSpecReadings.StripConsumption1 | auto-comparatore/src/components/ui/compare/CompareContainer.tsx:68 | "6.2 L/100km" strips to "6.2100" |
| MockSpecReadings.StripConsumption2 | auto-comparatore/src/components/ui/compare/CompareContainer.tsx:68 | "6.8 L/100km" strips to "6.8100" |
| MockSpecReadings.StripAcceleration1 | auto-comparatore/src/components/ui/compare/CompareContainer.tsx:71 | "7.1 s" strips to "7.1" |
| MockSpecReadings.StripAcceleration2 | auto-comparatore/src/components/ui/compare/CompareContainer.tsx:71 | "7.8 s" strips to "7.8" |
| MockSpecReadings.ReadStripped | auto-comparatore/src/components/ui/compare/CompareResults.tsx:25 | the decimal text of i "." f reads as the given value |
| MockSpecReadings.ReadConsumption1 | auto-comparatore/src/components/ui/compare/CompareContainer.tsx:68 | "6.2100" reads as 6.21 |
| MockSpecReadings.ReadConsumption2 | auto-comparatore/src/components/ui/compare/CompareContainer.tsx:68 | "6.8100" reads as 6.81 |
| MockSpecReadings.ReadAcceleration1 | auto-comparatore/src/components/ui/compare/CompareContainer.tsx:71 | "7.1" reads as 7.1 |
| MockSpecReadings.ReadAcceleration2 | auto-comparatore/src/components/ui/compare/CompareContainer.tsx:71 | "7.8" reads as 7.8 |
| CompareContainer.MockCar | auto-comparatore/src/components/ui/compare/CompareContainer.tsx:56-93 | the record's id is the requested id, with 5 features, 3 pros and 2 cons |
| CompareContainer.MockIgnoresId | auto-comparatore/src/components/ui/compare/CompareContainer.tsx:56-93 | apart from the id, the record depends only on the card number |
| CompareContainer.MockValues | auto-comparatore/src/components/ui/compare/CompareContainer.tsx:58-83 | the six metric values of the two mocks: 45000/48000, 15/18, 184/170, 6.21/6.81, 7.1/7.8, 4.5/4.3 |
| CompareContainer.MockBeats | auto-comparatore/src/components/ui/compare/CompareContainer.tsx:58-83 | the card-1 mock is ahead of the card-2 mock on every metric |
| CompareContainer.AheadOnEveryMetric | auto-comparatore/src/components/ui/compare/CompareResults.tsx:29-78 | records with the mocks' metric values are ordered on each metric in its direction |
| CompareContainer.MockIdealFor | auto-comparatore/src/components/ui/compare/CompareContainer.tsx:84-88 | the bullets are "Ottime prestazioni", "Buona tenuta di strada" for card 1 and "Design elegante", "Comfort superiore" for card 2 |
| CompareContainer.MockEndToEnd | auto-comparatore/src/components/ui/compare/CompareContainer.tsx:56-93 | comparing the two mocks: every row better1, tally 6–0–0 for car1, car1 recommended, car2 the generic text |
| CompareContainer.Container.constructor | auto-comparatore/src/components/ui/compare/CompareContainer.tsx:39-42 | both slots empty and both flags down |
| CompareContainer.Container.BeginSelect | auto-comparatore/src/components/ui/compare/CompareContainer.tsx:45-49 | the selected card's flag goes up; the other flag and both slots are unchanged |
| CompareContainer.Container.CompleteSelect | auto-comparatore/src/components/ui/compare/CompareContainer.tsx:56-100 | the selected slot holds the mock record, and its flag is down; the other slot and flag are unchanged |
| CompareContainer.Container.HandleCarSelect | auto-comparatore/src/components/ui/compare/CompareContainer.tsx:45-101 | only the selected slot is written, with the mock record for the id; its flag ends down; the other card is untouched |
| CompareContainer.Container.HandleReset | auto-comparatore/src/components/ui/compare/CompareContainer.tsx:104-107 | both slots become null; the loading flags are unchanged |
| CompareContainer.Container.HasComparison | auto-comparatore/src/components/ui/compare/CompareContainer.tsx:231 | true iff both slots are non-null |
| CompareContainer.Container.Results | auto-comparatore/src/components/ui/compare/CompareContainer.tsx:213-222 | a report exists iff both slots are filled, and it is the comparison of slot 1 against slot 2 |
| CompareContainer.MockComparison | auto-comparatore/src/components/ui/compare/CompareContainer.tsx:45-222 | selecting card 1, then card 2, on a fresh page shows a 6–0–0 win for car1 with car1 recommended and car2 the generic text |
| CarForm.ModelsFor | auto-comparatore/src/components/ui/compare/CarForm.tsx:26-32 | no options without a brand; otherwise five options, brand + " " + each fixed model name |
| CarForm.ModelsStartWithBrand | auto-comparatore/src/components/ui/compare/CarForm.tsx:26-32 | every option begins with the brand and a space |
| CarForm.ModelsDistinct | auto-comparatore/src/components/ui/compare/CarForm.tsx:26-32 | a brand's options are pairwise different |
| CarForm.Form.Models | auto-comparatore/src/components/ui/compare/CarForm.tsx:26-32 | the options for the current brand: none without a brand, otherwise five, brand + " " + each fixed model name |
| CarForm.BrandsFixed | auto-comparatore/src/components/ui/compare/CarForm.tsx:21-24 | thirteen brands, none repeated |
| CarForm.YearTexts | auto-comparatore/src/components/ui/compare/CarForm.tsx:34 | the decimal texts of 2024 down to 2018 |
| CarForm.YearsFixed | auto-comparatore/src/components/ui/compare/CarForm.tsx:34 | seven years, the i-th being the decimal text of 2024 − i |
| CarForm.CarId | auto-comparatore/src/components/ui/compare/CarForm.tsx:44 | the id is the brand, a dash, the model, a dash and the year, each at its position, and two longer than the three parts |
| CarForm.CarIdDetermines | auto-comparatore/src/components/ui/compare/CarForm.tsx:44 | for a fixed brand and years without a dash, the id determines the model and the year |
| CarForm.CarIdAmbiguous | auto-comparatore/src/components/ui/compare/CarForm.tsx:44 | without a fixed brand two different selections can share an id |
| CarForm.Form.constructor | auto-comparatore/src/components/ui/compare/CarForm.tsx:15-18 | all selections empty, not searching |
| CarForm.Form.IsFormValid | auto-comparatore/src/components/ui/compare/CarForm.tsx:50 | true iff brand, model and year are all non-empty |
| CarForm.Form.SearchEnabled | auto-comparatore/src/components/ui/compare/CarForm.tsx:156 | the button is enabled iff the form is valid, not loading and not searching |
| CarForm.Form.ChangeBrand | auto-comparatore/src/components/ui/compare/CarForm.tsx:67-70 | the new brand is set and the model reset to empty; the year and the flag are unchanged |
| CarForm.Form.ChangeModel | auto-comparatore/src/components/ui/compare/CarForm.tsx:92 | only the model changes |
| CarForm.Form.ChangeYear | auto-comparatore/src/components/ui/compare/CarForm.tsx:117 | only the year changes |
| CarForm.Form.HandleSearch | auto-comparatore/src/components/ui/compare/CarForm.tsx:36-48 | an incomplete form hands on nothing and leaves the flag as it was; a complete one hands on brand-model-year and ends not searching; the selections never change |
| CarForm.PickAndSearch | auto-comparatore/src/components/ui/compare/CarForm.tsx:21-48 | BMW, its second option and 2023 on a fresh form search for "BMW-BMW Serie 3-2023" |
| CarForm.BmwSearchId | auto-comparatore/src/components/ui/compare/CarForm.tsx:21-44 | the id for BMW, its second option and 2023 is "BMW-BMW Serie 3-2023" |
| CarForm.ChangeBrandBlocksSearch | auto-comparatore/src/components/ui/compare/CarForm.tsx:36-70 | changing the brand after choosing a model makes the next search do nothing |

## Left out

- The price-estimation algorithm (`Algorithm/car_value.py`) and the REST API (`restApi/main.py`) are not part of this model. They are regression and plotting code, network glue and a placeholder endpoint.
- The landing page's API call (`Hero.tsx`) is not part of this model. It is a network fetch and an alert.
- The share, clipboard, print and history actions (`CompareActions.tsx`) are left out. They are browser I/O.
- The presentational components are left out: cards, specs, images, navigation, footer, layouts and pages. So are the animation variants in the modelled files and the icons.
- The edit button of a card triggers a new load with an empty id. It lives in presentation code and is left out; the model has no operation that clears a single slot.
- The 1500 ms and 800 ms `setTimeout` delays are left out, and so are `async` scheduling and any interleaving of events.
  - `handleCarSelect` is modelled as its two halves, `BeginSelect` and `CompleteSelect`, and `HandleCarSelect` runs them back to back.
  - `handleSearch` is modelled as one step.
- The `catch` branch of `handleCarSelect` only logs. Nothing in the `try` block can fail in the model, so the model has no failure path; `finally` is the flag reset in `CompleteSelect`.
- The `onCarSelect` callback of the picker is an outgoing call. `Form.HandleSearch` returns the id it would receive: `None` when the guard returns first.
- Number formatting (`toLocaleString`, the `€` prefix, the `-…%` and `…/5` texts) is left out. A displayed amount is its prefix, the number and its suffix, carried unchanged.
- Prices, depreciations, ratings and parsed values are exact reals, not IEEE doubles. Rounding in `parseFloat` is not modelled, and neither are a NaN or an infinity stored in a numeric record field.
- `parseFloat` is modelled only on the stripped text, which holds nothing but digits and dots. Its handling of signs, exponents, `Infinity` and whitespace is not needed there and is left out.
- The model picker is disabled in the page while no brand is chosen. That is a rendering attribute; `Form.ChangeModel` accepts any value.
- Both select elements and the option lists are rendered from the constants; only the constants and the derived lists are modelled.
