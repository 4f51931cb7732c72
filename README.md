# token-beacon-pro in Dafny

A model of the client-side logic of token-beacon-pro. This is a React
front end where institutional investors compare stablecoin and
tokenised-asset products, keep favorites, track wallets and holdings on
two portfolio dashboards, walk through account opening, and chat with a
canned assistant. There is no server: all state lives in a persisted
zustand store and in component state.

The model covers each part of that logic in the form it has in the source:

- **The application store** (`AppStore.Store`) is a class whose fields are the
  store's slices. Its actions are methods that reassign exactly the slices
  the source's `set` call names. Proved about it:
  - favorites toggling (`Seqs.Toggle`);
  - the wallet add/remove cascade, with the invariant that every dashboard
    holding belongs to a listed wallet.
- **The portfolio dashboards** (`DashboardV2`, `AssetDashboard`) cover:
  - total value, the value-weighted APY and monthly earnings;
  - the per-token distribution (`Grouping`);
  - the pie-chart loops, each proved against a prefix-sum specification.

  The two dashboards compute the weighted APY by different formulas. These
  are proved equal (`AssetDashboard.WeightedApyAgrees`).
- **The two trend charts** (`Charts`, `MarketValueChart`, `PriceChart`) cover
  the 31-day mock history walk and the merge of per-series histories into
  per-day records. `Math.random()` becomes a parameter: a stream of draws in
  [0, 1). The date labels become a parameter too.
- **The product catalog** (`Catalog`, `ProductTable`, `ProductList`, `Sorting`)
  covers:
  - case-insensitive search;
  - the favorites-only filter;
  - the market-cap parser;
  - both comparators.

  `Array.prototype.sort` is modelled as an insertion sort on an array copy.
  It is proved to give a permutation that is sorted for any total preorder,
  and each comparator is proved to be one.
- **The wizards and forms** (`AccountOpening`, `AccountAssistant`,
  `ManualWalletForm`, `OnboardingForm`, `WalletConnector`) are classes over
  their `useState` fields. Each comes with its guards and gates.
- **The chat window** (`AIChatbot`) and **the language hook** (`UseLanguage`).

JavaScript numbers are modelled as exact reals (`JsNumber.Num`). NaN and the
infinities are folded into one absorbing `NonFinite` value. Strings are
sequences of Unicode characters. JavaScript counts UTF-16 code units instead;
the two agree on every fixed text here, and on typed text without characters
outside the Basic Multilingual Plane (see "## Left out").

## Model

| member | source | states |
|---|---|---|
| AppStore.MockAssets | src/store/useAppStore.ts:7-16 | eight holdings, every one tagged with the given wallet id, none with a purchase time or price |
| AppStore.Store.constructor | src/store/useAppStore.ts:62-106 | the initial store: Chinese, not onboarded, no favorites, home page, nothing selected or connected, chat closed, sidebar open, no wallets or holdings, and so the ownership invariant holds |
| AppStore.Store.SetLanguage | src/store/useAppStore.ts:65 | only the language changes, to the given one |
| AppStore.Store.SetOnboarded | src/store/useAppStore.ts:70 | marks the institution onboarded and records exactly the given answers, touching no other slice |
| AppStore.Store.IsFavorite | src/store/useAppStore.ts:82 | true exactly when some entry of the favorites list equals the id |
| AppStore.Store.ToggleFavorite | src/store/useAppStore.ts:74-81 | an absent id is appended at the end, a present one is removed everywhere; its membership flips and every other id's membership is unchanged |
| Seqs.Toggle | src/store/useAppStore.ts:76-80 | the toggled element's membership flips and every other element's membership is kept |
| Seqs.ToggleTwice | src/store/useAppStore.ts:74-81 | toggling an absent element twice restores the list; toggling a present one twice moves it to the end |
| Seqs.ToggleDistinct | src/components/products/AccountOpeningFlow.tsx:42-48 | a duplicate-free list stays duplicate-free under a toggle |
| AppStore.Store.SetCurrentPage | src/store/useAppStore.ts:86 | only the page changes |
| AppStore.Store.SetSelectedProductId | src/store/useAppStore.ts:90 | only the selected product changes, possibly to none |
| AppStore.Store.SetConnectedWallet | src/store/useAppStore.ts:94 | only the legacy connected address changes |
| AppStore.Store.ToggleChat | src/store/useAppStore.ts:98 | negates the chat flag and nothing else |
| AppStore.Store.ToggleSidebar | src/store/useAppStore.ts:102 | negates the sidebar flag and nothing else |
| AppStore.ToggleTwiceRestores | src/store/useAppStore.ts:98-102 | toggling the chat twice and the sidebar twice leaves both flags as they were |
| Types.WalletDraft.WithId | src/store/useAppStore.ts:108-111 | the new wallet carries the given id and every field of the draft |
| AppStore.Store.AddDashboardWallet | src/store/useAppStore.ts:107-117 | appends exactly one wallet (the draft under the new id) and its eight mock holdings after the existing ones, and keeps the ownership invariant |
| AppStore.Store.RemoveDashboardWallet | src/store/useAppStore.ts:118-123 | drops the wallets with the id and the holdings of that wallet, keeps the rest in order, and keeps the ownership invariant |
| AppStore.RemoveWalletSpec | src/store/useAppStore.ts:118-123 | exactly the wallets with another id and the holdings of other wallets remain, and the id no longer names a wallet |
| AppStore.RemoveWalletIdempotent | src/store/useAppStore.ts:118-123 | removing the same wallet twice is removing it once |
| AppStore.AddWalletKeepsOwnership | src/store/useAppStore.ts:107-117 | if every holding named a listed wallet before an add, every holding does after it |
| AppStore.RemoveWalletKeepsOwnership | src/store/useAppStore.ts:118-123 | if every holding named a listed wallet before a removal, every holding does after it |
| AppStore.RemovingWalletAloneBreaksOwnership | src/store/useAppStore.ts:120-121 | without the cascade on holdings, removing a wallet would leave an orphaned holding |
| Seqs.Filter | src/store/useAppStore.ts:120-121 | `Array.prototype.filter`: keeps exactly the elements satisfying the predicate, never more than it was given |
| Seqs.FilterAppend | src/components/dashboard/AssetDashboardV2.tsx:58-59 | filtering distributes over concatenation, so relative order is kept |
| Seqs.Find | src/components/products/ProductList.tsx:17 | `Array.prototype.find`: none exactly when no element matches, otherwise a matching element of the list |
| Seqs.Dedup | src/components/dashboard/PriceTrendChart.tsx:61 | `[...new Set(xs)]`: duplicate-free, with exactly the elements of the input |
| Seqs.DedupFirstAppearance | src/components/dashboard/PriceTrendChart.tsx:61 | deduplicated elements keep the order of their appearances in the input |
| Seqs.Take | src/components/dashboard/PriceTrendChart.tsx:61 | `slice(0, n)`: the first min(n, length) elements |
| JsText.Prefix | src/components/dashboard/AssetDashboard.tsx:96 | `slice(0, n)` on a string: the first min(n, length) characters |
| JsText.Suffix | src/components/dashboard/AssetDashboard.tsx:96 | `slice(-n)` on a string: the last min(n, length) characters |
| JsText.ShortAddress | src/components/dashboard/AssetDashboard.tsx:96 | the abbreviated address: the first six characters, "...", the last four; 13 characters for an address of at least six |
| JsText.Includes | src/components/products/ProductTable.tsx:47-49 | `String.prototype.includes`: true exactly when the needle occurs at some position |
| JsText.IncludesTrivial | src/components/products/ProductTable.tsx:47 | every string includes the empty string and itself |
| JsText.Lower | src/components/products/ProductTable.tsx:44 | `toLowerCase`: same length, each upper-case ASCII letter lowered, every other character kept |
| JsText.LowerIdempotent | src/components/products/ProductTable.tsx:44-47 | lowering twice is lowering once |
| JsText.TrimStartSpec | src/components/chat/AIChatbot.tsx:43 | drops exactly the leading whitespace: the rest is a suffix not starting with whitespace |
| JsText.TrimEndSpec | src/components/chat/AIChatbot.tsx:43 | drops exactly the trailing whitespace: the rest is a prefix not ending with whitespace |
| JsText.TrimSpec | src/components/chat/AIChatbot.tsx:43-48 | the trimmed text occurs in the original, has no whitespace at either end, and is empty exactly when the original is all whitespace |
| JsText.TrimIdempotent | src/components/chat/AIChatbot.tsx:48 | trimming twice is trimming once |
| JsNumber.Add | src/components/dashboard/AssetDashboardV2.tsx:229 | a sum is a number exactly when both operands are, and then it is their sum |
| JsNumber.Sub | src/components/products/ProductTable.tsx:61 | a difference is a number exactly when both operands are, and adding back the subtrahend gives the minuend |
| JsNumber.Neg | src/components/products/ProductTable.tsx:82 | a negation is a number exactly when its operand is, and sums with it to zero |
| JsNumber.Mul | src/components/dashboard/ManualWalletForm.tsx:188 | a product is a number exactly when both factors are, and then it is their product |
| JsNumber.Div | src/components/dashboard/AssetDashboardV2.tsx:71 | a quotient is a number exactly when both operands are and the divisor is non-zero; multiplied by the divisor it gives the dividend |
| JsNumber.LeadingDigits | src/components/products/ProductTable.tsx:34 | the longest prefix made of digits |
| JsNumber.ParseDigits | src/components/products/ProductTable.tsx:34 | `parseFloat` of a non-empty digit string is its decimal value |
| JsNumber.ParseNoDigits | src/components/products/ProductTable.tsx:34 | `parseFloat` of "" or "." is NaN |
| Catalog.VisibleSpec | src/components/products/ProductTable.tsx:43-55 | a product is shown exactly when it is in the catalog, matches the lowered search (or the search is empty) in its name, token name or a platform, and is favorited when the switch is on; no filter shows the whole catalog |
| Catalog.SearchFindsOwnName | src/components/products/ProductTable.tsx:43-50 | searching for a product's name in any letter case finds that product |
| Catalog.SearchIgnoresCase | src/components/products/ProductTable.tsx:44-49 | two searches that differ only in letter case show the same products |
| Catalog.NumberChars | src/components/products/ProductTable.tsx:34 | the cleaned cap keeps only digits and points |
| Catalog.ParseMarketCap | src/components/products/ProductTable.tsx:32-38 | a missing or empty cap is 0 |
| Catalog.MarketCapLetters | src/components/products/ProductTable.tsx:35-37 | a non-empty cap is the cleaned number times 1e9 if it contains "B", else times 1e6 if it contains "M", else the number itself |
| Catalog.DigitsParsed | src/components/products/ProductTable.tsx:34 | the number cleaned out of "$<digits><letter>" is the digits' value, and the letter occurs in the text |
| Catalog.CleanedDigits | src/components/products/ProductTable.tsx:34 | cleaning "$", digits and a letter leaves the digits |
| Catalog.MarketCapScaled | src/components/products/ProductTable.tsx:32-38 | a text whose cleaned number reads x is worth x billions when it contains "B", otherwise x millions when it contains "M" |
| Catalog.MarketCapBillions | src/components/products/ProductTable.tsx:34-35 | "$<digits>B" is worth y billions, y being the digits' value |
| Catalog.MarketCapMillions | src/components/products/ProductTable.tsx:34-36 | "$<digits>M" is worth y millions, y being the digits' value |
| Catalog.MarketCapNotANumber | src/components/products/ProductTable.tsx:34-37 | a cap without digits such as "N/A" parses to NaN |
| Catalog.LexLeReflexive | src/components/products/ProductTable.tsx:79 | the name order relates every name to itself |
| Catalog.LexLeTotal | src/components/products/ProductTable.tsx:79 | any two names are ordered one way or the other |
| Catalog.LexLeAntisymmetric | src/components/products/ProductTable.tsx:79 | names ordered both ways are equal |
| Catalog.LexLeTransitive | src/components/products/ProductTable.tsx:79 | the name order is transitive |
| Catalog.LocaleCompare | src/components/products/ProductTable.tsx:79 | zero exactly for equal names, negative exactly when the first sorts before, positive exactly when it sorts after |
| Catalog.LocaleCompareAntisymmetric | src/components/products/ProductTable.tsx:79 | swapping the names negates the comparison |
| Catalog.TableLeOrder | src/components/products/ProductTable.tsx:57-83 | the comparator says "not after" exactly when the key is ascending (asc) or descending (desc) between the two products |
| Catalog.TableLeIsTotalPreorder | src/components/products/ProductTable.tsx:57-83 | every column and direction gives a total, transitive comparator, as `sort` requires |
| Catalog.SortedInOrder | src/components/products/ProductTable.tsx:57-83 | a list sorted by the comparator has every earlier product in order with every later one |
| Catalog.ProductById | src/components/products/ProductList.tsx:17 | some product exactly when an id is selected and the catalog has it; then it is the first catalog product with that id |
| Sorting.SortInPlace | src/components/products/ProductTable.tsx:57 | `Array.prototype.sort` on an array: afterwards it is sorted by the comparator and holds the same elements |
| Sorting.Insert | src/components/products/ProductTable.tsx:57 | one insertion step extends the sorted prefix by one element, keeping the elements |
| Sorting.Swap | src/components/products/ProductTable.tsx:57 | exchanges two entries and nothing else |
| Sorting.Placed | src/components/products/ProductTable.tsx:57 | an element that sits in order with its left neighbour and before everything to its right completes a sorted prefix |
| Sorting.SortedCopy | src/components/products/ProductTable.tsx:41-57 | sorting a copy: the result is sorted, has the same elements and length, and the input is untouched |
| ProductTable.Table.constructor | src/components/products/ProductTable.tsx:18-21 | the table opens unsearched, on all products, by 7-day APY descending |
| ProductTable.Table.SetSearch | src/components/products/ProductTable.tsx:127 | only the search text changes |
| ProductTable.Table.ToggleFavoritesOnly | src/components/products/ProductTable.tsx:116 | flips the favorites-only switch |
| ProductTable.Table.HandleSort | src/components/products/ProductTable.tsx:23-30 | the clicked column becomes the sort column; the same column flips the direction, another starts descending |
| ProductTable.SameHeaderTwice | src/components/products/ProductTable.tsx:23-30 | two clicks on the current column's header restore the sort |
| ProductTable.Table.FilteredProducts | src/components/products/ProductTable.tsx:40-86 | the result is a permutation of the visible products, with every earlier one in order with every later one by the chosen column and direction |
| ProductList.ListLeIsTableLe | src/components/products/ProductList.tsx:39-49 | the list's three comparators are the table's APY-descending, fee-ascending and name-ascending comparators |
| ProductList.ModeOrderIsInOrder | src/components/products/ProductList.tsx:39-49 | the list's orders coincide with those table orders |
| ProductList.FilteredProducts | src/components/products/ProductList.tsx:19-52 | a permutation of the visible products, by non-increasing APY, non-decreasing management fee, or ascending name |
| ProductList.PageView | src/components/products/ProductList.tsx:17-61 | the detail view exactly when the selected id names a catalog product, showing that product; the list otherwise |
| AccountAssistant.InitialStepsSpec | src/components/assistant/AccountAssistant.tsx:21-26 | four distinct steps in a fixed order, none completed |
| AccountAssistant.ToggledStepsSpec | src/components/assistant/AccountAssistant.tsx:31-35 | only the matching step's flag flips; ids, titles and order stay |
| AccountAssistant.ToggledStepsTwice | src/components/assistant/AccountAssistant.tsx:31-35 | toggling a step twice restores the checklist |
| AccountAssistant.FavoriteProductsSpec | src/components/assistant/AccountAssistant.tsx:28 | exactly the favorited catalog products, in catalog order, whatever the order of the favorites list |
| AccountAssistant.Assistant.constructor | src/components/assistant/AccountAssistant.tsx:20-26 | nothing selected and the initial checklist |
| AccountAssistant.Assistant.SelectProduct | src/components/assistant/AccountAssistant.tsx:83 | the clicked product becomes the selection |
| AccountAssistant.Assistant.ToggleStep | src/components/assistant/AccountAssistant.tsx:31-35 | the checklist becomes its toggled version |
| AccountAssistant.Assistant.CurrentView | src/components/assistant/AccountAssistant.tsx:28-37 | the empty state exactly when no catalog product is favorited, whatever the selection; otherwise the checklist exactly when the selected id names a catalog product, and then for that product |
| AccountAssistant.Assistant.ViewDetails | src/components/assistant/AccountAssistant.tsx:119-122 | the store selects the product and returns to the home page |
| AccountOpening.DocumentIdsSpec | src/components/products/AccountOpeningFlow.tsx:24-33 | eight distinct document ids |
| AccountOpening.CanProceed | src/components/products/AccountOpeningFlow.tsx:50-57 | step 1 needs the company confirmed, step 2 the investor confirmed, step 3 at least four documents, any other step nothing |
| AccountOpening.BackStep | src/components/products/AccountOpeningFlow.tsx:307-311 | back stays within 1..4, moves one step down from 2 or 3, stays at 1, and is not offered at 4 |
| AccountOpening.NextStep | src/components/products/AccountOpeningFlow.tsx:307-319 | next stays within 1..4, moves one step up only when allowed and before step 4 |
| AccountOpening.BackUndoesNext | src/components/products/AccountOpeningFlow.tsx:311-318 | back after an allowed next returns to the earlier step, except from step 4, which offers no back |
| AccountOpening.CheckedDocsBounded | src/components/products/AccountOpeningFlow.tsx:42-48 | ticking documents from the table keeps the list duplicate-free and at most eight long |
| AccountOpening.CheckboxClickToggleTwice | src/components/products/AccountOpeningFlow.tsx:242-247 | two toggles of an unticked document leave the list as it was |
| AccountOpening.Flow.constructor | src/components/products/AccountOpeningFlow.tsx:37-40 | step 1, nothing confirmed, no documents |
| AccountOpening.Flow.SetConfirmedCompany | src/components/products/AccountOpeningFlow.tsx:157 | only the company confirmation changes |
| AccountOpening.Flow.SetConfirmedInvestor | src/components/products/AccountOpeningFlow.tsx:218 | only the investor confirmation changes |
| AccountOpening.Flow.Back | src/components/products/AccountOpeningFlow.tsx:307-312 | only the step changes, by the back rule, staying in 1..4; confirmations and documents are kept |
| AccountOpening.Flow.Next | src/components/products/AccountOpeningFlow.tsx:307-319 | only the step changes, by the next rule under the current gate, staying in 1..4 |
| AccountOpening.Flow.HandleDocCheck | src/components/products/AccountOpeningFlow.tsx:42-48 | an unticked document is appended, a ticked one removed; its membership flips |
| AccountOpening.Flow.ClickCheckboxAsWritten | src/components/products/AccountOpeningFlow.tsx:242-247 | a click on the checkbox runs both handlers: the list is toggled twice, so an unticked document stays unticked |
| AccountOpening.Flow.ClickCheckbox | src/components/products/AccountOpeningFlow.tsx:242-247 | one toggle per click on the checkbox: membership flips |
| ManualWalletForm.HexIndex | src/components/dashboard/ManualWalletForm.tsx:41 | the floor of draw×16: a valid index into the hex digits |
| ManualWalletForm.GenerateAddress | src/components/dashboard/ManualWalletForm.tsx:36-44 | the loop builds "0x" followed by the hex digit each draw picks |
| ManualWalletForm.RandomAddressShape | src/components/dashboard/ManualWalletForm.tsx:36-44 | the default address has 42 characters: "0x" and forty lower-case hex digits |
| ManualWalletForm.RandomAddressCovers | src/components/dashboard/ManualWalletForm.tsx:36-44 | every such address is produced by some forty draws |
| ManualWalletForm.AssetOptionsDistinct | src/components/dashboard/ManualWalletForm.tsx:21-30 | the offered tokens are eight distinct names in a fixed order |
| ManualWalletForm.AssetCategories | src/components/dashboard/ManualWalletForm.tsx:21-30 | USDY and BUIDL are money-market funds, PAXG and XAUT gold, ETH and BTC crypto, USDC and USDT stablecoins |
| ManualWalletForm.CategoryOfListed | src/components/dashboard/ManualWalletForm.tsx:55 | each offered token's lookup finds its own row |
| ManualWalletForm.CategoryOfSpec | src/components/dashboard/ManualWalletForm.tsx:55-56 | a token has a category exactly when the form offers it |
| ManualWalletForm.Form.constructor | src/components/dashboard/ManualWalletForm.tsx:35-48 | all fields empty except the address, which is the random address from the draws |
| ManualWalletForm.Form.SetSelectedAsset | src/components/dashboard/ManualWalletForm.tsx:122 | only the token field changes |
| ManualWalletForm.Form.SetWalletAddress | src/components/dashboard/ManualWalletForm.tsx:111 | only the address field changes |
| ManualWalletForm.Form.SetWalletName | src/components/dashboard/ManualWalletForm.tsx:97 | only the name field changes |
| ManualWalletForm.Form.SetPurchaseTime | src/components/dashboard/ManualWalletForm.tsx:145 | only the purchase-time field changes |
| ManualWalletForm.Form.SetPurchasePrice | src/components/dashboard/ManualWalletForm.tsx:159 | only the price field changes |
| ManualWalletForm.Form.SetQuantity | src/components/dashboard/ManualWalletForm.tsx:175 | only the quantity field changes |
| ManualWalletForm.Form.IsFormValid | src/components/dashboard/ManualWalletForm.tsx:69 | all six fields non-empty; the constructor's contract shows a fresh form is not valid, and `Submit` gives a submission only when it is |
| ManualWalletForm.Form.Submit | src/components/dashboard/ManualWalletForm.tsx:50-67 | a submission exactly when all six fields are filled and the token is offered; it carries the name, address, token and purchase time as typed, the parsed price and quantity, and the token's category |
| ManualWalletForm.Form.SummaryTotal | src/components/dashboard/ManualWalletForm.tsx:188 | price times quantity, a number exactly when both parse |
| OnboardingForm.Periods | src/components/onboarding/OnboardingForm.tsx:45 | the Chinese period list for zh, the English one for en, four entries either way |
| OnboardingForm.CanSubmit | src/components/onboarding/OnboardingForm.tsx:38-43 | the four required answers all present and truthy; its behaviour is stated by `CanSubmitIgnoresWallet` and `CanSubmitAfterFilling` |
| OnboardingForm.CanSubmitIgnoresWallet | src/components/onboarding/OnboardingForm.tsx:38-43 | the wallet switch and platform never affect whether the form can be sent; the initial form cannot be |
| OnboardingForm.CanSubmitAfterFilling | src/components/onboarding/OnboardingForm.tsx:38-43 | filling the four required answers with non-empty text makes the form submittable; emptying any of them makes it not |
| OnboardingForm.Form.constructor | src/components/onboarding/OnboardingForm.tsx:21-23 | the form starts with only the wallet switch, off |
| OnboardingForm.Form.UpdateField | src/components/onboarding/OnboardingForm.tsx:31-36 | the named answer is set and every other answer is kept |
| OnboardingForm.Form.HandleSubmit | src/components/onboarding/OnboardingForm.tsx:25-29 | the store records the answers and marks the institution onboarded exactly when the submit condition holds, and is untouched otherwise |
| WalletConnector.MetaMaskName | src/components/dashboard/WalletConnector.tsx:25-31 | the typed name; otherwise "MetaMask " and the abbreviated address for any address, which for six or more characters is the first six and last four around "..." |
| WalletConnector.BnbName | src/components/dashboard/WalletConnector.tsx:41 | the typed name, or a fixed non-empty default |
| WalletConnector.Connector.constructor | src/components/dashboard/WalletConnector.tsx:19-22 | no type selected, empty fields, no QR code |
| WalletConnector.Connector.SelectType | src/components/dashboard/WalletConnector.tsx:57-80 | selecting either type records it and hides the QR code |
| WalletConnector.Connector.SetWalletAddress | src/components/dashboard/WalletConnector.tsx:119 | only the address field changes |
| WalletConnector.Connector.SetWalletName | src/components/dashboard/WalletConnector.tsx:111 | only the name field changes |
| WalletConnector.Connector.HandleConnect | src/components/dashboard/WalletConnector.tsx:24-32 | a request exactly when MetaMask is selected and an address typed; it passes the address unchanged, type MetaMask and the MetaMask name |
| WalletConnector.Connector.StartBnbAuth | src/components/dashboard/WalletConnector.tsx:34-36 | the QR code is shown |
| WalletConnector.Connector.FinishBnbAuth | src/components/dashboard/WalletConnector.tsx:37-44 | after the wait: the fixed exchange address, type BNB and the exchange name; the QR code is hidden again |
| DashboardV2.MockAssets | src/components/dashboard/AssetDashboardV2.tsx:28-33 | four holdings of positive value (USDY, BUIDL, sDAI, USDe), all tagged with the wallet id |
| DashboardV2.FilteredAssets | src/components/dashboard/AssetDashboardV2.tsx:65-67 | all holdings without a selection; otherwise exactly the holdings of the selected wallet |
| DashboardV2.FilteredAssetsAppend | src/components/dashboard/AssetDashboardV2.tsx:65-67 | the filter keeps the holdings' order |
| DashboardV2.TotalValue | src/components/dashboard/AssetDashboardV2.tsx:69 | the reduce's sum of the holdings' values; its bounds are in `TotalValueBounds` |
| DashboardV2.TotalValueBounds | src/components/dashboard/AssetDashboardV2.tsx:69 | with no negative holding the total is non-negative and at least each holding's value |
| DashboardV2.WeightedApy | src/components/dashboard/AssetDashboardV2.tsx:70-72 | 0 without holdings; otherwise a number exactly when the total is non-zero, and then times the total it gives the APY-weighted sum |
| DashboardV2.MonthlyEarnings | src/components/dashboard/AssetDashboardV2.tsx:73 | a number exactly when the APY is; times 1200 it gives total × APY |
| DashboardV2.MonthlyEarningsCancel | src/components/dashboard/AssetDashboardV2.tsx:69-73 | for a non-zero total, monthly earnings are the APY-weighted sum over 1200 |
| DashboardV2.ZeroValueHoldingGivesNaN | src/components/dashboard/AssetDashboardV2.tsx:70-73 | the guard tests the count, so a single holding worth nothing gives NaN for the APY and the earnings |
| DashboardV2.WeightedApyExample | src/components/dashboard/AssetDashboardV2.tsx:69-72 | holdings worth 100 at 10% and 300 at 2% average to 4% |
| DashboardV2.ApyValueSumBounds | src/components/dashboard/AssetDashboardV2.tsx:71 | with non-negative values, the weighted sum lies between the lowest and highest APY times the total |
| DashboardV2.WeightedStep | src/components/dashboard/AssetDashboardV2.tsx:71 | one more non-negative holding with an APY within the bounds keeps the weighted sum within them |
| DashboardV2.WeightedApyBetween | src/components/dashboard/AssetDashboardV2.tsx:69-72 | with non-negative values and a positive total, the weighted APY lies between the lowest and highest APY |
| DashboardV2.QuotientBetween | src/components/dashboard/AssetDashboardV2.tsx:72 | a quotient by a positive total whose product is bounded in units of the total lies within those bounds |
| DashboardV2.TokenValuesTotal | src/components/dashboard/AssetDashboardV2.tsx:76-79 | the pairs the distribution reads add up to the total value |
| DashboardV2.DistributionSpec | src/components/dashboard/AssetDashboardV2.tsx:76-79 | the distribution's keys are the distinct tokens on show, in order of first appearance, and its values add up to the total value |
| DashboardV2.Shares | src/components/dashboard/AssetDashboardV2.tsx:226 | each slice's share is its value over the total, times 100 |
| DashboardV2.PieSlices | src/components/dashboard/AssetDashboardV2.tsx:222-229 | one slice per token, each with its share and the offset accumulated before it |
| DashboardV2.OffsetIsPrefixSum | src/components/dashboard/AssetDashboardV2.tsx:222-229 | each slice's offset is the sum of the earlier slices' shares |
| DashboardV2.SharesSum | src/components/dashboard/AssetDashboardV2.tsx:224-229 | the shares add up to the distribution total over the total, times 100 |
| DashboardV2.SharesSumTo100 | src/components/dashboard/AssetDashboardV2.tsx:224-229 | with a non-zero total the shares add up to 100 |
| DashboardV2.Dashboard.constructor | src/components/dashboard/AssetDashboardV2.tsx:37-41 | no wallets, no holdings, no selection, form closed, not loading |
| DashboardV2.Dashboard.CurrentView | src/components/dashboard/AssetDashboardV2.tsx:83-108 | the empty state exactly when there are no wallets and the form is closed; the add form exactly when it is open |
| DashboardV2.Dashboard.SetShowAddWallet | src/components/dashboard/AssetDashboardV2.tsx:99 | only the form flag changes |
| DashboardV2.Dashboard.SelectWallet | src/components/dashboard/AssetDashboardV2.tsx:147-158 | only the selection changes |
| DashboardV2.Dashboard.BeginConnect | src/components/dashboard/AssetDashboardV2.tsx:43-44 | the spinner starts |
| DashboardV2.Dashboard.CompleteConnect | src/components/dashboard/AssetDashboardV2.tsx:45-54 | appends the wallet under the new id and its four holdings, closes the form and stops the spinner |
| DashboardV2.Dashboard.RemoveWallet | src/components/dashboard/AssetDashboardV2.tsx:57-63 | drops the wallet and all its holdings, clearing the selection only when it was that wallet |
| AssetDashboard.MockWalletAssets | src/components/dashboard/AssetDashboard.tsx:12-17 | four holdings of positive value: USDY, sDAI, USDC, USDe |
| AssetDashboard.TotalValue | src/components/dashboard/AssetDashboard.tsx:36 | 0 when there are no holdings |
| AssetDashboard.EntriesTotalIsTotal | src/components/dashboard/AssetDashboard.tsx:36 | the pie entries add up to the total value |
| AssetDashboard.WeightedApy | src/components/dashboard/AssetDashboard.tsx:37-39 | 0 with no holdings or an empty list |
| AssetDashboard.PerTermSumQuotient | src/components/dashboard/AssetDashboard.tsx:37-39 | for a non-zero total, the sum of apy×value/total is the APY-weighted sum over the total |
| AssetDashboard.PerTermSumZeroTotal | src/components/dashboard/AssetDashboard.tsx:37-39 | with a zero total and any holding, the sum is NaN |
| AssetDashboard.WeightedApyAgrees | src/components/dashboard/AssetDashboard.tsx:37-39 | this dashboard's per-term weighted APY equals the other dashboard's sum-then-divide formula on every list |
| AssetDashboard.MonthlyEarnings | src/components/dashboard/AssetDashboard.tsx:147 | a number exactly when the APY is; times 1200 it gives total × APY |
| AssetDashboard.MonthlyEarningsAgrees | src/components/dashboard/AssetDashboard.tsx:147 | the two dashboards' monthly-earnings formulas agree |
| AssetDashboard.PieArcs | src/components/dashboard/AssetDashboard.tsx:160-185 | one arc per holding with dash share×2.51 and offset minus the earlier shares×2.51 |
| AssetDashboard.ArcOffsetSpec | src/components/dashboard/AssetDashboard.tsx:160-185 | each offset is minus 2.51 times the sum of the earlier percentages, and after the last arc it is -251 (the whole circle) |
| AssetDashboard.Dashboard.constructor | src/components/dashboard/AssetDashboard.tsx:20-23 | empty input, not loading, no holdings |
| AssetDashboard.Dashboard.SetWalletInput | src/components/dashboard/AssetDashboard.tsx:64 | only the input changes |
| AssetDashboard.Dashboard.HandleConnect | src/components/dashboard/AssetDashboard.tsx:25-34 | with no input nothing changes; otherwise the input becomes the connected wallet and the fixed holdings are shown |
| AssetDashboard.Dashboard.Reconnect | src/components/dashboard/AssetDashboard.tsx:101-104 | clears both the connected wallet and the holdings |
| Charts.Max | src/components/dashboard/MarketValueTrendChart.tsx:47 | `Math.max`: one of the two, and at least both |
| Charts.Step | src/components/dashboard/MarketValueTrendChart.tsx:46-47 | one step of the walk: never below the floor; either the floor or the value times the random factor |
| Charts.HistoryPoints | src/components/dashboard/MarketValueTrendChart.tsx:42-58 | 31 points |
| Charts.History | src/components/dashboard/MarketValueTrendChart.tsx:42-58 | the loop over days 30 down to 0, then the last value overwritten, yields the specified points |
| Charts.WalkFloor | src/components/dashboard/MarketValueTrendChart.tsx:46-47 | after any step the running value is at least the floor |
| Charts.HistoryShape | src/components/dashboard/MarketValueTrendChart.tsx:42-58 | 31 points, oldest first, every point but the last at least the floor, the last exactly the current value |
| Charts.StepFactor | src/components/dashboard/MarketValueTrendChart.tsx:46 | a step multiplies a positive value by a factor in [1 − drift·vol, 1 + (1 − drift)·vol) |
| Charts.StartBounds | src/components/dashboard/MarketValueTrendChart.tsx:40 | the start lies in [low, low + span) times the current value |
| Charts.Merge | src/components/dashboard/MarketValueTrendChart.tsx:87-102 | exactly 31 records, record i built from day i of every history |
| Charts.RecordFields | src/components/dashboard/MarketValueTrendChart.tsx:90-101 | a record has the first history's date, a series' field exactly when its history reaches that day, holding that day's value, and no other fields |
| Charts.RecordDate | src/components/dashboard/MarketValueTrendChart.tsx:90-93 | the date label is in every record and no series overwrites it |
| Charts.RecordSeries | src/components/dashboard/MarketValueTrendChart.tsx:95-99 | each series adds its field exactly when it has a point that day, with that value, and a later series never overwrites an earlier one |
| Charts.RecordNoOtherKeys | src/components/dashboard/MarketValueTrendChart.tsx:90-99 | a record holds no field besides the date and the series keys |
| MarketValueChart.Volatility | src/components/dashboard/MarketValueTrendChart.tsx:32-39 | every category's volatility is positive |
| MarketValueChart.VolatilityOrder | src/components/dashboard/MarketValueTrendChart.tsx:32-37 | crypto > gold > money-market funds > stablecoins |
| MarketValueChart.CategoryKey | src/components/dashboard/MarketValueTrendChart.tsx:71 | a category's key is never "date" |
| MarketValueChart.CategoryKeyInjective | src/components/dashboard/MarketValueTrendChart.tsx:71 | distinct categories have distinct keys |
| MarketValueChart.MarketValueHistory | src/components/dashboard/MarketValueTrendChart.tsx:27-61 | 31 points labelled from 30 days ago to today, the last exactly the current value |
| MarketValueChart.GenerateMarketValueHistory | src/components/dashboard/MarketValueTrendChart.tsx:27-61 | the generator computes that history |
| MarketValueChart.MarketValueHistorySpec | src/components/dashboard/MarketValueTrendChart.tsx:40-58 | no walked point is negative, so for a non-negative current value (the last point) no point is; for a positive value the walk starts in [0.8, 0.95) of it |
| MarketValueChart.MarketValueStepFactor | src/components/dashboard/MarketValueTrendChart.tsx:46 | a step multiplies by a factor in [1 − 0.4·vol, 1 + 0.6·vol) |
| MarketValueChart.ActiveCategoriesSpec | src/components/dashboard/MarketValueTrendChart.tsx:70-78 | the charted categories are distinct, at most four, exactly those whose holdings sum to a positive value, each with that sum |
| MarketValueChart.Histories | src/components/dashboard/MarketValueTrendChart.tsx:81-84 | one history per active category, keyed by it |
| MarketValueChart.HistoriesKeysDistinct | src/components/dashboard/MarketValueTrendChart.tsx:81-84 | the histories' keys are distinct and none is "date" |
| MarketValueChart.ActiveTotals | src/components/dashboard/MarketValueTrendChart.tsx:70-78 | each charted category carries the sum of its holdings' values |
| MarketValueChart.ActiveMembership | src/components/dashboard/MarketValueTrendChart.tsx:70-78 | a category is charted exactly when its holdings sum to a positive value |
| MarketValueChart.ActiveHasPositiveSum | src/components/dashboard/MarketValueTrendChart.tsx:70-78 | a charted category's holdings sum to a positive value |
| MarketValueChart.PositiveSumIsActive | src/components/dashboard/MarketValueTrendChart.tsx:70-78 | a category whose holdings sum to a positive value is charted |
| MarketValueChart.GenerateHistories | src/components/dashboard/MarketValueTrendChart.tsx:81-84 | one history series per active category, keyed by the category, in the same order |
| MarketValueChart.ChartData | src/components/dashboard/MarketValueTrendChart.tsx:66-105 | nothing without a positive category; otherwise the active categories and 31 merged records |
| MarketValueChart.HistoryRecords | src/components/dashboard/MarketValueTrendChart.tsx:87-102 | every record holds each category's value for that day, and the last holds its current sum |
| PriceChart.PriceVolatility | src/components/dashboard/PriceTrendChart.tsx:25 | 0.03 for BTC and ETH, 0.005 for every other token |
| PriceChart.PriceHistory | src/components/dashboard/PriceTrendChart.tsx:15-41 | 31 points labelled from 30 days ago to today, the last exactly the current price |
| PriceChart.GeneratePriceHistory | src/components/dashboard/PriceTrendChart.tsx:15-41 | the generator computes that history |
| PriceChart.PriceHistorySpec | src/components/dashboard/PriceTrendChart.tsx:18-38 | every point but the last is at least 0.01, so all are when the current price (the last point) is; for a positive price the walk starts in [0.85, 0.95) of it |
| PriceChart.PriceStepFactor | src/components/dashboard/PriceTrendChart.tsx:26 | a step multiplies by a factor in [1 − 0.45·vol, 1 + 0.55·vol) |
| PriceChart.ChartTokensSpec | src/components/dashboard/PriceTrendChart.tsx:61 | the charted tokens are the first at most four distinct tokens in order of appearance, all from the holdings, four whenever there are four, some whenever there are holdings |
| PriceChart.CurrentPriceSpec | src/components/dashboard/PriceTrendChart.tsx:65-68 | never 0: the first holding's price for the token, or 1 when that price is 0, or 1 when no holding has the token |
| PriceChart.Histories | src/components/dashboard/PriceTrendChart.tsx:64-70 | one history per charted token, keyed by it |
| PriceChart.GenerateHistories | src/components/dashboard/PriceTrendChart.tsx:64-70 | one price-history series per charted token, keyed by the token, in the same order |
| PriceChart.ChartData | src/components/dashboard/PriceTrendChart.tsx:57-91 | nothing without holdings; otherwise the charted tokens and 31 merged records |
| PriceChart.PriceRecords | src/components/dashboard/PriceTrendChart.tsx:72-88 | every record holds each token's price for that day and the date label, and the last holds its current price |
| Grouping.AddTo | src/components/dashboard/AssetDashboardV2.tsx:77 | adding to a key keeps the key order, appending the key only if new |
| Grouping.GroupSums | src/components/dashboard/AssetDashboardV2.tsx:76-79 | the reduce loop computes the grouped sums |
| Grouping.GroupedKeys | src/components/dashboard/AssetDashboardV2.tsx:76-79 | the keys are the input's keys deduplicated in order of first appearance |
| Grouping.GroupedKeysDistinct | src/components/dashboard/AssetDashboardV2.tsx:76-79 | the keys are distinct and exactly the input's keys |
| Grouping.GroupedValues | src/components/dashboard/AssetDashboardV2.tsx:76-79 | each key's value is the sum of the input values under that key |
| Grouping.GroupedTotal | src/components/dashboard/AssetDashboardV2.tsx:76-79 | the grouped values add up to the input total |
| Grouping.FilterKeepsKeysDistinct | src/components/dashboard/MarketValueTrendChart.tsx:75-76 | filtering a grouping keeps its keys distinct |
| Grouping.SameKeySameEntry | src/components/dashboard/MarketValueTrendChart.tsx:70-76 | with distinct keys, an entry of the grouping is determined by its key |
| AIChatbot.Reply | src/components/chat/AIChatbot.tsx:58-68 | the canned answer for exactly this text, otherwise the fallback; never empty |
| AIChatbot.QuickRepliesAnswered | src/components/chat/AIChatbot.tsx:14-63 | the quick questions are exactly the answered keys, and each gets an answer other than the fallback |
| AIChatbot.PaddedQuestionGetsFallback | src/components/chat/AIChatbot.tsx:42-68 | a quick question with a trailing space is posted trimmed, yet answered with the fallback |
| AIChatbot.Chat.constructor | src/components/chat/AIChatbot.tsx:23-31 | one greeting from the assistant with id "1", empty input, nothing pending; the quick questions show and the send button is disabled |
| AIChatbot.Chat.ShowQuickReplies | src/components/chat/AIChatbot.tsx:163 | shown exactly while the greeting is the only message; the constructor shows them and `HandleSend` hides them after any accepted send |
| AIChatbot.Chat.CanSend | src/components/chat/AIChatbot.tsx:195 | enabled exactly when no answer is pending and the input has a non-whitespace character; `SendUserMessage` accepts the input whenever it is enabled |
| AIChatbot.Chat.SetInput | src/components/chat/AIChatbot.tsx:191 | only the input changes |
| AIChatbot.Chat.SendUserMessage | src/components/chat/AIChatbot.tsx:42-53 | blank text changes nothing; otherwise the trimmed text is appended as the user's message, the input cleared and an answer pending |
| AIChatbot.Chat.ReceiveReply | src/components/chat/AIChatbot.tsx:65-72 | the reply to the text as sent is appended and nothing is pending |
| AIChatbot.Chat.HandleSend | src/components/chat/AIChatbot.tsx:42-73 | blank text changes nothing; otherwise exactly the user's message and the reply are appended after the unchanged earlier messages, and the quick replies are hidden |
| UseLanguage.Translate | src/hooks/useLanguage.ts:7-9 | the current language's string when present and non-empty, otherwise the key itself |
| UseLanguage.UntranslatedKeyIsLanguageIndependent | src/hooks/useLanguage.ts:7-9 | a key with no string in either language reads as itself in both |
| UseLanguage.Other | src/hooks/useLanguage.ts:12 | the other language is never the current one |
| UseLanguage.OtherInvolution | src/hooks/useLanguage.ts:11-13 | switching twice returns to the start; zh switches to en |
| UseLanguage.ToggleLanguage | src/hooks/useLanguage.ts:11-13 | the language switches to the other one |

## Left out

- Rendering, styling, icons, colours, the chart libraries and the scrolling are not modelled. Only the state and the values computed from it are.
- Timers (`setTimeout`, the awaited delays) are left out. Where the source updates state in two phases around a delay, the model splits the handler into its two halves. This applies to `BeginConnect`/`CompleteConnect`, `StartBnbAuth`/`FinishBnbAuth`, and `SendUserMessage`/`ReceiveReply`. Elsewhere the delay is collapsed: `AssetDashboard.Dashboard.HandleConnect` is treated as atomic. Interleavings of other events during a delay are not modelled.
- Persistence of the store to local storage and rehydration are not modelled. The `Store` constructor gives the initial state.
- Ids from `Date.now()` are parameters, so uniqueness of wallet ids is not claimed.
- `Math.random()` is a stream of draws in [0, 1), and `new Date()` is a function from days-ago to a label. Midnight rollover during the loop is not modelled. The generator is not seeded, so nothing here claims two renders give the same history.
- Floating-point arithmetic is modelled as exact real arithmetic. NaN and ±Infinity are folded into one `NonFinite` value. Rounding for display (`toFixed`, `toLocaleString`, `parseFloat(value.toFixed(n))` in the chart histories) is not modelled, so the history values are the unrounded walk.
- ManualWalletForm.Form.Submit and ManualWalletForm.Form.SummaryTotal take `parseFloat` as a parameter. Only `parseMarketCap` needs the parser's behaviour. There, `JsNumber.ParseDecimal` models the digits-and-points strings that cleaning leaves: leading digits with an optional fraction, NaN without digits. Exponents and signs cannot occur in those strings.
- Strings are sequences of code points, while `slice` and `length` count UTF-16 code units. For a typed wallet address with a character outside the Basic Multilingual Plane (an emoji, say), `JsText.ShortAddress` and `WalletConnector.MetaMaskName` can cut at a different place than JavaScript, which may split a surrogate pair.
- Grouping.Grouped keeps keys in insertion order, as a JavaScript object does for string keys. JavaScript puts integer-like keys first and treats "__proto__" specially. The keys here are fixed token and category names, none integer-like or "__proto__", so this does not change the results.
- JsText.Lower lowers ASCII letters only. JavaScript's full Unicode case mapping is not modelled.
- Catalog.LocaleCompare is code-point lexicographic order, not the locale's collation.
- Catalog.MarketCapValue: a cap that does not parse (NaN) is ranked as 0 in the market-cap sort. In JavaScript, NaN comparisons make the order of such products implementation-defined.
- Sorting.SortInPlace: stability is not stated, although `Array.prototype.sort` has been stable since ECMAScript 2019. Only sortedness and permutation are proved, so `ProductTable.Table.FilteredProducts` and `ProductList.FilteredProducts` leave the relative order of products with equal keys open.
- AIChatbot.Reply looks up the four answers as a map. A JavaScript object literal also answers prototype keys such as "constructor" with a truthy non-string, and that is not modelled.
- `mockProducts` and the translation tables are parameters (`catalog`, `translations`). Their contents are not part of this model.
- AppStore.Store.IsFavorite and the other store members are methods on one store object. The React subscription that re-renders components is not modelled.
- The account-opening flow's Feishu button and `window.open` are foreign calls and are left out. The product detail pages are not part of this model.
- AssetDashboard.TotalValue states only the empty case in its contract. Its value on a list is the sum of the holdings' values, which `AssetDashboard.EntriesTotalIsTotal` and `AssetDashboard.WeightedApyAgrees` relate to the other dashboard.
- Charts.HistoryPoints states only the length in its contract. The walk's properties are in `Charts.HistoryShape` and the per-chart spec lemmas.

## Findings

| source | as written | input that shows it | evidently intended | confidence | as-written member | corrected member |
|---|---|---|---|---|---|---|
| src/components/products/AccountOpeningFlow.tsx:242-247 | the document card's click handler and its checkbox's change handler both call `handleDocCheck`, and a click on the checkbox bubbles to the card | a click on the checkbox of an unticked document: both handlers toggle, and the document stays unticked | one toggle per click, wherever on the card the click lands | likely; not executed | AccountOpening.Flow.ClickCheckboxAsWritten | AccountOpening.Flow.ClickCheckbox |
