# estate-hub-connect, modelled in Dafny

estate-hub-connect is a React front end for a real-estate marketplace. Agencies, agents and
property listings live in in-memory mock arrays. This project models the logic behind its pages:

- the listing searches and their filter panel;
- the add, edit and delete operations on the page lists;
- the record builders and the validation of the property form;
- the pass that links the mock records by foreign key;
- the subscription plans;
- a few display transforms.

Each module follows one source file:

| module | source file | form |
|---|---|---|
| `Types` | `src/types/index.ts` | datatypes for users, agents, agencies, properties, plans and statuses; the constant plan table |
| `Text` | (JavaScript string built-ins) | ASCII `toLowerCase`, `includes`, capitalisation, decimal `toString` and `parseInt` |
| `Seqs` | (JavaScript array built-ins) | `filter` and `find`, with their laws |
| `MockData` | `src/data/mockData.ts` | the mock records, and `initializeMockData` as loops over arrays |
| `SearchFilters` | `src/components/search/AdvancedSearchFilters.tsx` | the `SearchFilters` record, key replacement, the select handlers, the badges, the price-range table |
| `SearchContainer` | `src/components/search/AdvancedSearchContainer.tsx` | the active-filter counter; a class for the term and filter state |
| `AgenciesPage` | `src/pages/Agencies.tsx` | the three-stage agency search; a class for the page state |
| `PropertyDialog` | `src/components/PropertyDialog.tsx` | the form schema, the form resets, and `onSubmit` |
| `PropertiesPage` | `src/pages/Properties.tsx` | the list filter, delete, replace-by-id; a class for the page state |
| `AgencyList` | `src/components/admin/AgencyList.tsx` | the name-or-location filter and the verify button |
| `CreateAgencyForm` | `src/components/admin/CreateAgencyForm.tsx` | the record builder; a class for the form state and `isSubmitting` |
| `AdminAgencyManagement` | `src/pages/AdminAgencyManagement.tsx` | the verification toggle; a class for the page state |
| `AdminDashboard` | `src/pages/AdminDashboard.tsx` | the in-place marking of shared records; a class for the pending lists |
| `DashboardStats` | `src/components/dashboard/DashboardStats.tsx` | the `reduce` over agent counts |
| `Billing` | `src/pages/BillingManagement.tsx` | a class for the current and selected plan |
| `AgencyDashboard` | `src/pages/AgencyDashboard.tsx` | the listing limit, the plan badge, the preview slice |
| `AgencyProfile` | `src/pages/AgencyProfile.tsx` | agency lookup, and the website and social-link transforms |

Where the source updates a record cell or page state in place, the model does so too. The records nested inside other records are the exception; see `AdminDashboard.Dashboard.Load` under "## Left out".

- The mock arrays are Dafny `array`s. `initializeMockData` and the admin dashboard's set-up write their record cells.
- Each page's React state is a `class` whose fields its methods reassign.
- Pure expressions are functions.
- The functions that compute the pages' lists and records are specified by their own `ensures`, or by the lemmas named in their row of the table below. Display strings such as toast texts and titles are constants; only some of them have a law of their own.

`undefined` and missing keys are `Option.None`. Timestamps are whole milliseconds.
`Date.now()`, `new Date()` and `Math.random()` are parameters (`now`, `freshId`).

The search form also sets price, bedroom, bathroom, status and featured keys, but no list reads them:

- The agency directory (src/pages/Agencies.tsx:25-49) applies only the term (on the name), the location and the plan.
- The property page (src/pages/Properties.tsx:34-38) applies only the term, on the title, city and property type.

The model states that the other keys are ignored (`AgenciesPage.SearchIgnoresOtherKeys`).

## Model

| member | source | states |
|---|---|---|
| `Types.PlanFromName` | src/types/index.ts:3 | the plan cast succeeds exactly on the three plan names and returns the plan of that name |
| `Types.PlanNameRoundTrip` | src/types/index.ts:3 | every plan's name casts back to the same plan |
| `Types.PlanIndex` | src/types/index.ts:75-117 | every plan has exactly one row in the plan table |
| `Types.DetailsOf` | src/types/index.ts:75-117 | the looked-up row is in the table and is the row of the asked plan |
| `Types.PlanTableOrdered` | src/types/index.ts:75-117 | the table has three rows: basic, standard, premium; prices and property limits strictly increase |
| `Types.PriceOrdersLimit` | src/types/index.ts:79-106 | a dearer plan has a larger property limit |
| `Types.FirstFeatureStatesLimit` | src/types/index.ts:80-108 | each plan's first feature reads "List up to N properties", where N is its property limit in decimal |
| `Types.LimitNames` | src/types/index.ts:80-106 | the decimal forms of the limits 5, 20 and 100 |
| `Types.OnlyStandardRecommended` | src/types/index.ts:100 | a plan is recommended exactly when it is standard |
| `Text.Lower` | src/pages/Agencies.tsx:31 | `toLowerCase` keeps the length, lowers each character, and gives a lower-case string |
| `Text.LowerIdempotent` | src/pages/Agencies.tsx:31 | lowering twice is lowering once |
| `Text.CapitalizeSpec` | src/pages/BillingManagement.tsx:27 | `charAt(0).toUpperCase() + slice(1)` keeps the length, upper-cases the first character, keeps the rest, and is idempotent |
| `Text.ContainsIffOccurs` | src/pages/Agencies.tsx:31 | `includes` holds exactly when the needle occurs at some position of the haystack |
| `Text.ContainsTransitive` | src/pages/Properties.tsx:35 | a substring of a substring is a substring |
| `Text.NatToStringValue` | src/components/search/AdvancedSearchFilters.tsx:139 | `toString` of a natural gives decimal digits whose value is that number |
| `Text.NatToStringInjective` | src/components/search/AdvancedSearchFilters.tsx:139 | different numbers have different decimal forms |
| `Text.NatToString` | src/components/search/AdvancedSearchFilters.tsx:139 | `toString` of a natural is a non-empty digit string without a leading zero |
| `Text.ParseInt` | src/components/search/AdvancedSearchFilters.tsx:107 | `parseInt` with no radix skips leading white space, reads an optional sign and a `0x` prefix that switches to base sixteen, and is NaN exactly when no digit of the base follows |
| `Text.ParseIntOfNatToString` | src/components/search/AdvancedSearchFilters.tsx:107 | parsing a number's decimal form gives the number back |
| `Text.ParseIntOfDecimal` | src/components/search/AdvancedSearchFilters.tsx:107 | a decimal form, with or without a minus sign, followed by text that does not go on with a digit or an `x`, parses to its number |
| `Text.ParseIntSkipsWhitespace` | src/components/search/AdvancedSearchFilters.tsx:107 | a leading white-space character does not change the result |
| `Text.ParseIntHexPrefix` | src/components/search/AdvancedSearchFilters.tsx:107 | `"0x1A"` parses to 26 and `"0x"` alone is NaN |
| `Seqs.FindSpec` | src/pages/AgencyProfile.tsx:38 | `find` gives none exactly when no element matches, and otherwise the first matching element |
| `MockData.AgentListings` | src/data/mockData.ts:286 | the filter by `agentId`; specified by `AgentListingsIsFilter` and `AgentListingsSpec` |
| `MockData.AgentListingsIsFilter` | src/data/mockData.ts:286 | an agent's derived list is `properties.filter` by `agentId` |
| `MockData.AgentListingsSpec` | src/data/mockData.ts:286 | it keeps, in order, exactly the properties with the agent's id |
| `MockData.AgencyListings` | src/data/mockData.ts:292 | the filter by `agencyId`; specified by `AgencyListingsIsFilter` and `AgencyListingsSpec` |
| `MockData.AgencyListingsIsFilter` | src/data/mockData.ts:292 | an agency's listings are `properties.filter` by `agencyId` |
| `MockData.AgencyListingsSpec` | src/data/mockData.ts:292 | they are, in order, exactly the properties with the agency's id |
| `MockData.AgencyStaff` | src/data/mockData.ts:291 | the filter of agents by `agencyId`; specified by `AgencyStaffIsFilter` and `AgencyStaffSpec` |
| `MockData.AgencyStaffIsFilter` | src/data/mockData.ts:291 | an agency's staff is `agents.filter` by `agencyId` |
| `MockData.AgencyStaffSpec` | src/data/mockData.ts:291 | it is, in order, exactly the agents with the agency's id |
| `MockData.LinkAgent` | src/data/mockData.ts:286 | one agent after the first loop; specified through `LinkAgents` |
| `MockData.LinkAgency` | src/data/mockData.ts:291-292 | one agency after the second loop; specified through `LinkAgencies` |
| `MockData.LinkAgents` | src/data/mockData.ts:285-287 | the length is kept; each agent lists the properties `filter`ed by its id and is otherwise unchanged |
| `MockData.LinkAgencies` | src/data/mockData.ts:290-293 | the length is kept; each agency lists the agents and the properties `filter`ed by its id and is otherwise unchanged |
| `MockData.Initialize` | src/data/mockData.ts:283-300 | the whole pass on values; `InitializeMockData` is proved equal to it and `InitializeIdempotent` shows a second pass changes nothing |
| `MockData.LinkAgentsInPlace` | src/data/mockData.ts:285-287 | the first loop leaves the agents array equal to the linked agents |
| `MockData.LinkAgenciesInPlace` | src/data/mockData.ts:290-293 | the second loop leaves the agencies array equal to the linked agencies |
| `MockData.InitializeMockData` | src/data/mockData.ts:283-300 | the same three arrays come back; properties are unchanged; agents are linked, then agencies against the linked agents |
| `MockData.LinkAgentsKeepsKeys` | src/data/mockData.ts:286 | linking rewrites only the derived list; ids and foreign keys survive |
| `MockData.InitializeIdempotent` | src/data/mockData.ts:283-300 | running the pass a second time changes nothing |
| `MockData.AgentListMembership` | src/data/mockData.ts:286 | after linking, an agent lists a property exactly when its `agentId` is that agent's id |
| `MockData.UnassignedPropertyInNoAgent` | src/data/mockData.ts:286 | a property without `agentId` is in no agent's list |
| `MockData.AgencyListsMembership` | src/data/mockData.ts:291-292 | after linking, an agency holds exactly the agents and properties with its id |
| `MockData.PropertyIds` | src/data/mockData.ts:131-256 | the id list has one entry per property, in order |
| `MockData.AgencyStaffOfFour` | src/data/mockData.ts:291 | the staff count of an agency among four agents is the number of matching `agencyId`s |
| `MockData.StaffCountIgnoresLinking` | src/data/mockData.ts:285-291 | linking the agents first does not change any agency's staff count |
| `MockData.AgencyListingsFirstAndFifth` | src/data/mockData.ts:292 | an agency owning exactly the first and fifth of six properties lists those two, in order |
| `MockData.MockAgencyOneListings` | src/data/mockData.ts:151-252 | in the mock data, agency "1" lists properties "1" and "5" |
| `MockData.MockOneAgentEach` | src/data/mockData.ts:82-121 | in the mock data, each of the four agencies has exactly one agent |
| `MockData.FindAgency` | src/pages/AdminAgencyManagement.tsx:92 | `find` by id; specified by `Seqs.FindSpec` and used by `AdminAgencyManagement.FindAfterToggle` |
| `SearchFilters.Get` | src/components/search/AdvancedSearchFilters.tsx:72-82 | reading a key gives a value of the type the interface declares for it |
| `SearchFilters.FiltersExtensional` | src/components/search/AdvancedSearchFilters.tsx:72-82 | two filter objects that agree on every key are equal |
| `SearchFilters.ChangeFilter` | src/components/search/AdvancedSearchFilters.tsx:101-103 | `{ ...filters, [k]: v }` holds `v` at `k` and agrees with the old object on every other key |
| `SearchFilters.ChangeFilterSameValue` | src/components/search/AdvancedSearchFilters.tsx:101-103 | writing back a key's own value changes nothing |
| `SearchFilters.ChangeFilterOverwrite` | src/components/search/AdvancedSearchFilters.tsx:101-103 | of two writes to the same key, only the second remains |
| `SearchFilters.ChangeFilterCommutes` | src/components/search/AdvancedSearchFilters.tsx:101-103 | writes to different keys commute |
| `SearchFilters.StringChoice` | src/components/search/AdvancedSearchFilters.tsx:165 | a select value becomes undefined exactly when it is the sentinel, and otherwise stays the same string |
| `SearchFilters.NumberChoice` | src/components/search/AdvancedSearchFilters.tsx:265 | a numeric select value becomes undefined exactly when it is the sentinel, and otherwise the number it spells |
| `SearchFilters.SelectLocation` | src/components/search/AdvancedSearchFilters.tsx:165 | "any-location" clears the location, any other value sets it; other keys are kept |
| `SearchFilters.SelectPropertyType` | src/components/search/AdvancedSearchFilters.tsx:188 | "any-type" clears the type, any other value sets it; other keys are kept |
| `SearchFilters.SelectStatus` | src/components/search/AdvancedSearchFilters.tsx:338 | "any-status" clears the status, any other value sets it; other keys are kept |
| `SearchFilters.SelectMinBedrooms` | src/components/search/AdvancedSearchFilters.tsx:265 | "any-bedrooms" clears the minimum, a digit option sets its number; other keys are kept |
| `SearchFilters.SelectMinBathrooms` | src/components/search/AdvancedSearchFilters.tsx:288 | "any-bathrooms" clears the minimum, a digit option sets its number; other keys are kept |
| `SearchFilters.SelectPlan` | src/components/search/AdvancedSearchFilters.tsx:314 | "any-plan" clears the plan, a plan name sets that plan; other keys are kept |
| `SearchFilters.ToggleFeatured` | src/components/search/AdvancedSearchFilters.tsx:361 | the checkbox stores its checked state, so unchecking stores false rather than undefined; other keys are kept |
| `SearchFilters.RemoveBadge` | src/components/search/AdvancedSearchFilters.tsx:380-460 | a single-key badge makes its key undefined and keeps the others |
| `SearchFilters.RemoveFeaturedBadge` | src/components/search/AdvancedSearchFilters.tsx:472 | the featured badge stores false, not undefined; other keys are kept |
| `SearchFilters.RemovePriceBadge` | src/components/search/AdvancedSearchFilters.tsx:406-409 | two objects are emitted, both spread from the same snapshot: the first clears only `minPrice`, the second only `maxPrice` |
| `SearchFilters.PriceBadgeKeepsMinPrice` | src/components/search/AdvancedSearchFilters.tsx:406-409 | the second emission, built from the same snapshot, clears only `maxPrice`; `minPrice` survives |
| `SearchFilters.PriceBadgeEmissionsDiffer` | src/components/search/AdvancedSearchFilters.tsx:406-409 | with both bounds set, the two emissions differ, so which one arrives last matters |
| `SearchFilters.PropertyTypeOptionValues` | src/components/search/AdvancedSearchFilters.tsx:199 | the type options are the seven type names, lowercased |
| `SearchFilters.BedroomOptionValue` | src/components/search/AdvancedSearchFilters.tsx:265 | choosing bedroom option "n" stores the number n |
| `SearchFilters.PriceRangesDistinct` | src/components/search/AdvancedSearchFilters.tsx:62-70 | no two of the seven ranges have the same pair of bounds |
| `SearchFilters.FindRange` | src/components/search/AdvancedSearchFilters.tsx:135-137 | `findIndex` gives the first range with both bounds equal, or none when no range matches |
| `SearchFilters.FindRangeOfRange` | src/components/search/AdvancedSearchFilters.tsx:62-70 | the bounds of range i are found at i |
| `SearchFilters.PriceRangeChange` | src/components/search/AdvancedSearchFilters.tsx:106-116 | there is an emission exactly when `parseInt` gives 0..6; it sets exactly that range's bounds and keeps every other key |
| `SearchFilters.PriceRangeLabel` | src/components/search/AdvancedSearchFilters.tsx:119-128 | "Any Price" when a bound is missing; otherwise the first equal range's label, or "Custom Range" |
| `SearchFilters.PriceRangeIndex` | src/components/search/AdvancedSearchFilters.tsx:131-140 | "0" when a bound is missing or no range matches; otherwise the first equal range's index in decimal |
| `SearchFilters.PriceRangeRoundTrip` | src/components/search/AdvancedSearchFilters.tsx:106-140 | selecting range i and reading the panel back gives the index i and the label of range i |
| `SearchFilters.PriceRangeIndexIsOption` | src/components/search/AdvancedSearchFilters.tsx:211-222 | the select's value is always one of its seven option values |
| `SearchFilters.PriceRangeChangeRejects` | src/components/search/AdvancedSearchFilters.tsx:107-108 | "7", "-1", "abc" and "" emit nothing |
| `SearchContainer.Entries` | src/components/search/AdvancedSearchContainer.tsx:33 | one entry per key, and the entry at each key's position is that key's value, `undefined` for a missing key |
| `SearchContainer.IsActive` | src/components/search/AdvancedSearchContainer.tsx:33-37 | the entry test: neither `undefined` nor `false`; its effect on the count is `CountAfterChange` and `CountFeatured` |
| `SearchContainer.CountActiveFilters` | src/components/search/AdvancedSearchContainer.tsx:32-38 | its own ensures bounds the count by the nine keys; `CountEmpty` and `CountAfterChange` fix its value (zero for `{}`, and each key contributes one exactly while active) |
| `SearchContainer.KeyIndex` | src/components/search/AdvancedSearchFilters.tsx:72-82 | every key has its position in declaration order |
| `SearchContainer.CountEmpty` | src/components/search/AdvancedSearchContainer.tsx:48-50 | `{}` counts zero |
| `SearchContainer.CountAfterChange` | src/components/search/AdvancedSearchContainer.tsx:32-38 | changing one key moves the count by that key's new contribution minus its old one, where a value counts unless it is undefined or false |
| `SearchContainer.CountFeatured` | src/components/search/AdvancedSearchContainer.tsx:35 | `featured: false` counts like a missing key; `featured: true` counts one more |
| `SearchContainer.CountAtMostPresent` | src/components/search/AdvancedSearchContainer.tsx:32-38 | the count never exceeds the number of keys that hold a value |
| `SearchContainer.CountAfterPriceRange` | src/components/search/AdvancedSearchContainer.tsx:32-38 | any chosen range, "Any Price" included, makes both bounds count: the count grows by the number of bounds that were missing |
| `SearchContainer.AnyPriceCountsTwo` | src/components/search/AdvancedSearchFilters.tsx:63 | from no filters, choosing "Any Price" shows two active filters |
| `SearchContainer.Container.constructor` | src/components/search/AdvancedSearchContainer.tsx:25-29 | the state starts from the initial term and filters, and the mount effect searches once with them |
| `SearchContainer.Container.SetSearchTerm` | src/components/search/AdvancedSearchContainer.tsx:70 | typing changes only the term and does not search |
| `SearchContainer.Container.Search` | src/components/search/AdvancedSearchContainer.tsx:43-45 | the search callback receives the current term and filters |
| `SearchContainer.Container.ClearFilters` | src/components/search/AdvancedSearchContainer.tsx:48-50 | the filters become `{}`, the term stays, the count is zero, and the effect searches |
| `SearchContainer.Container.ActiveFiltersCount` | src/components/search/AdvancedSearchContainer.tsx:40 | the badge count is `CountActiveFilters` of the current filters; `ClearFilters` ensures it is zero afterwards |
| `SearchContainer.Container.HandleFilterChange` | src/components/search/AdvancedSearchContainer.tsx:53-60 | the whole filter object is replaced, the term stays, and the effect searches with the new object |
| `SearchContainer.Container.SetFilters` | src/components/search/AdvancedSearchContainer.tsx:53-55 | `setFilters` before the render: only the filters change, and no search is made yet |
| `SearchContainer.RemovePriceBadgeIn` | src/components/search/AdvancedSearchFilters.tsx:406-409 | both updates of one click are batched: the container holds the old filters with only `maxPrice` cleared, and the effect searches once with them |
| `AgenciesPage.ByTerm` | src/pages/Agencies.tsx:29-33 | the term stage; with the others it equals the conjunctive search by `StagesAreConjunction` |
| `AgenciesPage.ByLocation` | src/pages/Agencies.tsx:36-40 | the location stage; see `StagesAreConjunction` and `InactiveStagesKeepAll` |
| `AgenciesPage.ByPlan` | src/pages/Agencies.tsx:42-46 | the plan stage; see `StagesAreConjunction` and `InactiveStagesKeepAll` |
| `AgenciesPage.AgencySearch` | src/pages/Agencies.tsx:25-49 | the conjunctive search; its members are given by `SearchMembership` |
| `AgenciesPage.StagesAreConjunction` | src/pages/Agencies.tsx:26-48 | the three successive filters equal one filter by the conjunction of the three stages |
| `AgenciesPage.InactiveStagesKeepAll` | src/pages/Agencies.tsx:29-46 | an empty term, a missing or empty location, or a missing plan keeps every agency at that stage |
| `AgenciesPage.SearchAgencies` | src/pages/Agencies.tsx:25-49 | applying the truthy stages in turn gives the conjunctive search |
| `AgenciesPage.SearchMembership` | src/pages/Agencies.tsx:29-46 | an agency is listed exactly when it is loaded, the term is a case-insensitive substring of its name, its location is case-insensitively equal, and its plan is equal (each only when active) |
| `AgenciesPage.SearchIsSubsequence` | src/pages/Agencies.tsx:26-48 | the result is a subsequence of the loaded agencies |
| `AgenciesPage.ClearListsAll` | src/pages/Agencies.tsx:128 | `handleSearch('', {})` lists every agency |
| `AgenciesPage.SearchIgnoresOtherKeys` | src/pages/Agencies.tsx:25-49 | filters that agree on location and plan give the same result; price, bedroom, status and featured keys are ignored |
| `AgenciesPage.SearchTermCaseInsensitive` | src/pages/Agencies.tsx:31 | lowering the term first does not change the result |
| `AgenciesPage.SearchMonotone` | src/pages/Agencies.tsx:26-48 | a stricter search lists a subsequence of a looser one |
| `AgenciesPage.AddingLocationNarrows` | src/pages/Agencies.tsx:36-40 | choosing a location when none is set never enlarges the result, whatever plan is set |
| `AgenciesPage.AddingPlanNarrows` | src/pages/Agencies.tsx:42-46 | choosing a plan when none is set never enlarges the result, whatever location is set |
| `AgenciesPage.AddingTermNarrows` | src/pages/Agencies.tsx:29-33 | adding a term never enlarges the result |
| `AgenciesPage.OfferedLocationMatchesNoAgencyLocation` | src/pages/Agencies.tsx:36-40 | no offered city name ("New York") equals, ignoring case, a mock "city, ST" location |
| `AgenciesPage.OfferedLocationsMatchNone` | src/pages/Agencies.tsx:36-40 | agencies at the mock locations match no offered location, whatever the term |
| `AgenciesPage.OfferedLocationsMatchNoMockAgency` | src/pages/Agencies.tsx:36-40 | on the mock agencies, every offered location gives an empty list |
| `AgenciesPage.Page.constructor` | src/pages/Agencies.tsx:14-16 | the page starts empty and loading |
| `AgenciesPage.Page.Load` | src/pages/Agencies.tsx:18-23 | the mount effect shows all loaded agencies and stops loading |
| `AgenciesPage.Page.HandleSearch` | src/pages/Agencies.tsx:25-49 | the shown list becomes the search result; the loaded list is kept |
| `AgenciesPage.Page.ClearFilters` | src/pages/Agencies.tsx:128 | "Clear Filters" shows every loaded agency again |
| `PropertyDialog.Valid` | src/components/PropertyDialog.tsx:27-39 | the schema; `ValidIffNoErrors` ties it to the error list |
| `PropertyDialog.Errors` | src/components/PropertyDialog.tsx:27-39 | the failing fields in schema order; specified by `ErrorsMembership` |
| `PropertyDialog.FailingMembership` | src/components/PropertyDialog.tsx:27-39 | a field is reported exactly when it is checked and its rule fails |
| `PropertyDialog.ErrorsMembership` | src/components/PropertyDialog.tsx:27-39 | a field is among the errors exactly when its rule fails |
| `PropertyDialog.ValidIffNoErrors` | src/components/PropertyDialog.tsx:27-39 | the form passes exactly when there are no errors |
| `PropertyDialog.Message` | src/components/PropertyDialog.tsx:28-38 | the schema's custom texts; `MessageInjective` and `ErrorMessagesMembership` state what they show |
| `PropertyDialog.ShownMessage` | src/components/PropertyDialog.tsx:28-38 | the first failed check's text: the custom text, except zod's "Expected integer, received float" for a fractional bedrooms count, whose `.int()` check precedes `.positive()` |
| `PropertyDialog.ErrorMessages` | src/components/PropertyDialog.tsx:28-38 | one shown message per failing field, in the order of the schema's errors |
| `PropertyDialog.MessageInjective` | src/components/PropertyDialog.tsx:28-38 | different fields have different custom messages |
| `PropertyDialog.IntegerMessageIsNoCustomMessage` | src/components/PropertyDialog.tsx:31 | zod's integer text differs from every custom message |
| `PropertyDialog.ShownMessageInjective` | src/components/PropertyDialog.tsx:28-38 | under one set of values, different fields show different messages |
| `PropertyDialog.ErrorMessagesMembership` | src/components/PropertyDialog.tsx:28-38 | a field's shown message is on screen exactly when its rule fails; its custom message exactly when the rule fails and, for bedrooms, the count is whole |
| `PropertyDialog.FractionalBedroomsMessage` | src/components/PropertyDialog.tsx:31 | a fractional bedrooms count shows the integer text and not "Bedrooms must be a positive number" |
| `PropertyDialog.OptionalFieldsFree` | src/components/PropertyDialog.tsx:36-37 | `state` and `zipCode` never affect validity |
| `PropertyDialog.NewDefaultsErrors` | src/components/PropertyDialog.tsx:86-98 | a fresh form fails on exactly title, description, price, area, address and city |
| `PropertyDialog.NewDefaults` | src/components/PropertyDialog.tsx:86-98 | the reset values for a new listing; `NewDefaultsErrors` states which fields fail on them, and `ResetAgreesWithInitialValues` states that a new dialog starts from them; the record a new listing gets is stated by `SubmitNewDefaults` |
| `PropertyDialog.EditDefaults` | src/components/PropertyDialog.tsx:72-84 | the edit reset; specified by `EditDefaultsFallbacks` |
| `PropertyDialog.InitialValues` | src/components/PropertyDialog.tsx:53-68 | the first form values; compared with the resets by `ResetAgreesWithInitialValues` |
| `PropertyDialog.OnSubmit` | src/components/PropertyDialog.tsx:102-125 | the built record; specified by `SubmitCopiesForm`, `SubmitPreservesEdited`, `SubmitReplacesFalsyKeys` and `SubmitNewDefaults` |
| `PropertyDialog.EditDefaultsFallbacks` | src/components/PropertyDialog.tsx:76-82 | the edit reset maps a missing or zero bedroom or bathroom count to 1, a missing area to 0, and a missing state or zip to "" |
| `PropertyDialog.ResetAgreesWithInitialValues` | src/components/PropertyDialog.tsx:55-99 | the first values and the reset effect agree, except that only the first values replace an empty type by "House" |
| `PropertyDialog.SubmitCopiesForm` | src/components/PropertyDialog.tsx:105-119 | the form fields are copied into the record unchanged |
| `PropertyDialog.SubmitPreservesEdited` | src/components/PropertyDialog.tsx:103-125 | editing keeps the record's images, status, featured flag and creation date, and its id, country, agent and agency when truthy |
| `PropertyDialog.SubmitReplacesFalsyKeys` | src/components/PropertyDialog.tsx:104-123 | a falsy id, country, agent or agency of an edited record is replaced by the new-listing value |
| `PropertyDialog.SubmitNewDefaults` | src/components/PropertyDialog.tsx:104-124 | a new listing gets the fresh id, one default image, the USA, pending, not featured, agent and agency "1", and the current time |
| `PropertyDialog.EditRoundTrip` | src/components/PropertyDialog.tsx:70-125 | a complete record opened for editing and saved unchanged comes back equal |
| `PropertyDialog.Submit` | src/components/PropertyDialog.tsx:102-129 | `onSave` receives at most one record, exactly when the form is valid, and it is the built record; one toast follows each save |
| `PropertyDialog.DialogTitle` | src/components/PropertyDialog.tsx:135 | the title; tied to the toast by `ToastFollowsTitle` |
| `PropertyDialog.SaveToast` | src/components/PropertyDialog.tsx:128 | the toast; tied to the title by `ToastFollowsTitle` |
| `PropertyDialog.ToastFollowsTitle` | src/components/PropertyDialog.tsx:128-135 | the title says "Edit Property" and the toast says "updated" exactly when a property is being edited |
| `PropertiesPage.FilteredProperties` | src/pages/Properties.tsx:34-38 | the title, city or type filter; specified by `FilteredMembership` and `FilteredIsSubsequence` |
| `PropertiesPage.FilteredMembership` | src/pages/Properties.tsx:34-38 | a property is shown exactly when the term is a case-insensitive substring of its title, city or type |
| `PropertiesPage.FilteredIsSubsequence` | src/pages/Properties.tsx:34-38 | the shown list is a subsequence of the list |
| `PropertiesPage.EmptyTermShowsAll` | src/pages/Properties.tsx:34-38 | the empty term shows every property in order |
| `PropertiesPage.RefiningTermNarrows` | src/pages/Properties.tsx:34-38 | a term containing the old term never shows more |
| `PropertiesPage.WithoutId` | src/pages/Properties.tsx:50-52 | delete by id; specified by `WithoutIdSpec` |
| `PropertiesPage.WithoutIdSpec` | src/pages/Properties.tsx:50-52 | delete keeps, in order, exactly the properties with another id |
| `PropertiesPage.WithoutAbsentId` | src/pages/Properties.tsx:50-52 | deleting an absent id changes nothing |
| `PropertiesPage.WithoutIdIdempotent` | src/pages/Properties.tsx:50-52 | deleting twice is deleting once |
| `PropertiesPage.ReplaceById` | src/pages/Properties.tsx:57 | replace by id; specified by `ReplaceByIdSpec` |
| `PropertiesPage.ReplaceByIdSpec` | src/pages/Properties.tsx:57 | the update keeps the length, puts the saved record at every position with its id, and keeps the others |
| `PropertiesPage.ReplaceKeepsIds` | src/pages/Properties.tsx:57 | the update never changes the list of ids |
| `PropertiesPage.ReplaceAbsent` | src/pages/Properties.tsx:57 | saving a record whose id is not listed changes nothing |
| `PropertiesPage.ReplaceIdempotent` | src/pages/Properties.tsx:57 | saving the same record twice is saving it once |
| `PropertiesPage.EditSaveReplacesEdited` | src/pages/Properties.tsx:54-57 | the record built while editing `p` keeps `p`'s id and takes `p`'s place |
| `PropertiesPage.EmptyStateHint` | src/pages/Properties.tsx:106 | the hint asks to adjust the search exactly when a term is typed |
| `PropertiesPage.Page.constructor` | src/pages/Properties.tsx:28-31 | the list starts as the mock properties, with no term and no dialog |
| `PropertiesPage.Page.SetSearchTerm` | src/pages/Properties.tsx:29 | only the term changes, and the shown list becomes `FilteredProperties` of the properties by the new term |
| `PropertiesPage.Page.Shown` | src/pages/Properties.tsx:34-38 | the list on screen; `SetSearchTerm` ensures it is the filter by the typed term, and `FilteredMembership` states which properties it holds |
| `PropertiesPage.Page.AddProperty` | src/pages/Properties.tsx:40-43 | the dialog opens with no current property |
| `PropertiesPage.Page.EditProperty` | src/pages/Properties.tsx:45-48 | the dialog opens on the given property |
| `PropertiesPage.Page.SetDialogOpen` | src/pages/Properties.tsx:30 | only the dialog flag changes |
| `PropertiesPage.Page.DeleteProperty` | src/pages/Properties.tsx:50-52 | the list loses exactly the properties with the id; the rest of the state is kept |
| `PropertiesPage.Page.SaveProperty` | src/pages/Properties.tsx:54-63 | editing replaces by id and keeps the length; adding appends; the dialog closes |
| `AgencyList.ListedAgencies` | src/components/admin/AgencyList.tsx:20-23 | the name-or-location filter; specified by `ListedMembership` and `ListedIsSubsequence` |
| `AgencyList.ListedMembership` | src/components/admin/AgencyList.tsx:20-23 | an agency is listed exactly when the term is a case-insensitive substring of its name or location |
| `AgencyList.ListedIsSubsequence` | src/components/admin/AgencyList.tsx:20-23 | the list is a subsequence of the agencies |
| `AgencyList.EmptyTermListsAll` | src/components/admin/AgencyList.tsx:20-23 | the empty term lists every agency in order |
| `AgencyList.RefiningTermNarrows` | src/components/admin/AgencyList.tsx:20-23 | a term containing the old term never lists more |
| `AgencyList.EmptyStateHint` | src/components/admin/AgencyList.tsx:53 | the hint asks to adjust the search exactly when a term is typed |
| `AgencyList.VerifyCaption` | src/components/admin/AgencyList.tsx:69 | the button reads "Unverify" exactly for a verified agency |
| `AgencyList.VerificationClick` | src/components/admin/AgencyList.tsx:58-65 | the id passed to `onVerification` is that of the clicked card's agency, which is an agency of the given list |
| `CreateAgencyForm.WithField` | src/components/admin/CreateAgencyForm.tsx:29-32 | the input handler's spread; specified by `WithFieldSpec` |
| `CreateAgencyForm.WithFieldSpec` | src/components/admin/CreateAgencyForm.tsx:29-32 | an input change sets its own field and keeps the other fields and the plan |
| `CreateAgencyForm.WithFieldUnchanged` | src/components/admin/CreateAgencyForm.tsx:29-32 | writing back a field's own value changes nothing |
| `CreateAgencyForm.AgencyId` | src/components/admin/CreateAgencyForm.tsx:44 | `agency-` and the time; distinct times give distinct ids by `AgencyIdInjective` |
| `CreateAgencyForm.UserId` | src/components/admin/CreateAgencyForm.tsx:45 | `user-` and the time; its use in the record is stated by `BuildAgency` |
| `CreateAgencyForm.AgencyIdInjective` | src/components/admin/CreateAgencyForm.tsx:44 | agencies created at different milliseconds get different ids |
| `CreateAgencyForm.BuildAgency` | src/components/admin/CreateAgencyForm.tsx:44-59 | the record carries the time-based ids; it copies name, location, address and plan; its website is undefined exactly when empty; it is unverified, with no agents, no properties, no logo and no social links |
| `CreateAgencyForm.EmailNotStored` | src/components/admin/CreateAgencyForm.tsx:47-59 | the typed email has no effect on the record |
| `CreateAgencyForm.ButtonLabel` | src/components/admin/CreateAgencyForm.tsx:167 | the button reads "Creating..." exactly while submitting |
| `CreateAgencyForm.Form.ButtonDisabled` | src/components/admin/CreateAgencyForm.tsx:164 | the button is disabled exactly while submitting; `Form.StartCreate` requires it enabled and leaves it disabled, and `Form.CompleteCreate` enables it again |
| `CreateAgencyForm.CreatedToast` | src/components/admin/CreateAgencyForm.tsx:71-74 | the toast after a creation; `Form.CompleteCreate` ensures it follows each creation, and `CreatedToastNamesAgency` states its title and that its description names the agency |
| `CreateAgencyForm.CreatedToastNamesAgency` | src/components/admin/CreateAgencyForm.tsx:71-74 | the title is "Agency Created", and agencies of different names get different descriptions |
| `CreateAgencyForm.Form.constructor` | src/components/admin/CreateAgencyForm.tsx:18-26 | the form starts empty with plan basic, not submitting |
| `CreateAgencyForm.Form.InputChange` | src/components/admin/CreateAgencyForm.tsx:29-32 | only the named field changes |
| `CreateAgencyForm.Form.SelectChange` | src/components/admin/CreateAgencyForm.tsx:34-36 | only the plan changes |
| `CreateAgencyForm.Form.StartCreate` | src/components/admin/CreateAgencyForm.tsx:38-42 | the click raises the flag, which disables the button, and the timer keeps the form as it was at the click |
| `CreateAgencyForm.Form.CompleteCreate` | src/components/admin/CreateAgencyForm.tsx:42-78 | the timer builds the agency from the captured form, resets the form, passes the agency to `onAgencyCreated` once, and lowers the flag |
| `CreateAgencyForm.CreateOnce` | src/components/admin/CreateAgencyForm.tsx:38-79 | a click and its timer add exactly the agency of the form at the click, and reset the form |
| `AdminAgencyManagement.ToggleById` | src/pages/AdminAgencyManagement.tsx:84-90 | the toggle map; specified by `ToggleByIdSpec` |
| `AdminAgencyManagement.ToggleByIdSpec` | src/pages/AdminAgencyManagement.tsx:84-90 | the toggle keeps the length and flips `verified` at exactly the positions with the id |
| `AdminAgencyManagement.ToggleTwice` | src/pages/AdminAgencyManagement.tsx:84-90 | toggling the same id twice restores the list |
| `AdminAgencyManagement.ToggleAbsent` | src/pages/AdminAgencyManagement.tsx:84-90 | toggling an absent id changes nothing |
| `AdminAgencyManagement.FindAfterToggle` | src/pages/AdminAgencyManagement.tsx:84-92 | the agency found after the toggle is the one found before it, with its flag flipped |
| `AdminAgencyManagement.ToggleToast` | src/pages/AdminAgencyManagement.tsx:92-97 | the toast from the list before the toggle; specified by `ToastMatchesNewState` |
| `AdminAgencyManagement.ToastMatchesNewState` | src/pages/AdminAgencyManagement.tsx:92-97 | there is a toast exactly when the id is listed, and it says "Agency Verified" exactly when the agency is verified after the toggle |
| `AdminAgencyManagement.Page.constructor` | src/pages/AdminAgencyManagement.tsx:20-29 | the list starts as the mock agencies, with an empty search and an empty form |
| `AdminAgencyManagement.Page.SetSearchTerm` | src/pages/AdminAgencyManagement.tsx:21 | only the term changes, and the shown list follows it |
| `AdminAgencyManagement.Page.Shown` | src/pages/AdminAgencyManagement.tsx:32-35 | the list on screen; `SetSearchTerm` ensures it is the name-or-location filter by the new term, and `AgencyList.ListedMembership` states which agencies it holds |
| `AdminAgencyManagement.Page.InputChange` | src/pages/AdminAgencyManagement.tsx:37-40 | only the named form field changes |
| `AdminAgencyManagement.Page.SelectChange` | src/pages/AdminAgencyManagement.tsx:42-44 | only the form's plan changes |
| `AdminAgencyManagement.Page.CreateAgency` | src/pages/AdminAgencyManagement.tsx:46-81 | the built agency is appended without validation, the form resets to empty with plan basic, and the toast names the agency |
| `AdminAgencyManagement.Page.ToggleVerification` | src/pages/AdminAgencyManagement.tsx:83-99 | the list is toggled by id, its length is kept, and the toast comes from the list before the toggle |
| `AdminDashboard.UnverifyFirst` | src/pages/AdminDashboard.tsx:24-27 | the first loop on values; specified by `UnverifyFirstSpec` |
| `AdminDashboard.MarkPendingFirst` | src/pages/AdminDashboard.tsx:30-33 | the second loop on values; specified by `MarkPendingFirstSpec` |
| `AdminDashboard.UnverifyFirstSpec` | src/pages/AdminDashboard.tsx:24-27 | only the first n records change, and only in `verified`, which becomes false |
| `AdminDashboard.MarkPendingFirstSpec` | src/pages/AdminDashboard.tsx:30-33 | only the first n records change, and only in `status`, which becomes pending |
| `AdminDashboard.MarkingIdempotent` | src/pages/AdminDashboard.tsx:24-33 | marking twice is marking once |
| `AdminDashboard.SetupPendingAgencies` | src/pages/AdminDashboard.tsx:24-28 | the shared array's first min(2, n) cells are unverified in place, and the pending list is those cells |
| `AdminDashboard.SetupPendingProperties` | src/pages/AdminDashboard.tsx:30-34 | the shared array's first min(3, n) cells become pending in place, and the pending list is those cells |
| `AdminDashboard.WithoutAgency` | src/pages/AdminDashboard.tsx:43 | removal by id; specified by `WithoutAgencySpec` |
| `AdminDashboard.WithoutAgencySpec` | src/pages/AdminDashboard.tsx:43 | removal keeps, in order, exactly the agencies with another id |
| `AdminDashboard.WithoutAbsentAgency` | src/pages/AdminDashboard.tsx:43 | removing an absent id changes nothing |
| `AdminDashboard.Redirected` | src/pages/AdminDashboard.tsx:38-40 | the guard: the page is left unless an administrator is signed in |
| `AdminDashboard.Dashboard.constructor` | src/pages/AdminDashboard.tsx:17-18 | both pending lists start empty |
| `AdminDashboard.Dashboard.Load` | src/pages/AdminDashboard.tsx:20-35 | the mount effect marks the shared records and shows their first cells |
| `AdminDashboard.Dashboard.ApproveAgency` | src/pages/AdminDashboard.tsx:42-44 | the agency list loses the id; the property list is kept |
| `AdminDashboard.Dashboard.RejectAgency` | src/pages/AdminDashboard.tsx:46-48 | the same effect as approving |
| `AdminDashboard.Dashboard.ApproveProperty` | src/pages/AdminDashboard.tsx:50-52 | the property list loses the id; the agency list is kept |
| `AdminDashboard.Dashboard.RejectProperty` | src/pages/AdminDashboard.tsx:54-56 | the same effect as approving |
| `DashboardStats.TotalAgents` | src/components/dashboard/DashboardStats.tsx:36 | the `reduce`; specified by `TotalAgentsConcat` and `TotalAgentsBase` |
| `DashboardStats.TotalAgentsConcat` | src/components/dashboard/DashboardStats.tsx:36 | the total is additive over concatenation |
| `DashboardStats.TotalAgentsBase` | src/components/dashboard/DashboardStats.tsx:36 | no agencies give 0, and one agency gives its own agent count |
| `DashboardStats.TotalAgentsAtLeastEach` | src/components/dashboard/DashboardStats.tsx:36 | the total is at least any one agency's agent count |
| `DashboardStats.Stats` | src/components/dashboard/DashboardStats.tsx:42-49 | the agency and property cards show the list lengths |
| `DashboardStats.TotalOfFourSingles` | src/components/dashboard/DashboardStats.tsx:36 | four agencies with one agent each total four |
| `DashboardStats.LinkedTotalOfFour` | src/components/dashboard/DashboardStats.tsx:36 | four agencies that each employ one agent total four once linked |
| `DashboardStats.MockTotalAgents` | src/components/dashboard/DashboardStats.tsx:36 | on the linked mock data, the agents card shows 4 |
| `Billing.PlanDisplayName` | src/pages/BillingManagement.tsx:27 | each plan's capitalised name is its display name in the plan table |
| `Billing.UpdatedToast` | src/pages/BillingManagement.tsx:27 | the success toast; `ToastsDiffer` separates it from the no-op toast |
| `Billing.ToastsDiffer` | src/pages/BillingManagement.tsx:22-27 | the "already on this plan" and "updated" toasts never coincide |
| `Billing.Page.constructor` | src/pages/BillingManagement.tsx:13-14 | the current plan starts as standard, and the selection equals it |
| `Billing.Page.PlanSelect` | src/pages/BillingManagement.tsx:16-18 | only the selection changes; the button shows exactly when it differs from the current plan |
| `Billing.Page.ShowUpdateButton` | src/pages/BillingManagement.tsx:79 | the button shows exactly while the selection differs from the current plan; `PlanSelect` and `UpdatePlan` ensure it shows or hides accordingly |
| `Billing.Page.CurrentPlanText` | src/pages/BillingManagement.tsx:60 | "You are currently on the " followed by the current plan's display name from the plan table and " plan."; `UpdatePlan` ensures it then names the selected plan |
| `Billing.Page.UpdatePlan` | src/pages/BillingManagement.tsx:20-28 | the selection becomes current; the button hides; the "Current Plan" line names the selected plan; the toast says "already on this plan" when nothing changed, and otherwise names the new plan |
| `Billing.UpdateTwice` | src/pages/BillingManagement.tsx:20-28 | a second update changes nothing and only reports the plan |
| `AgencyDashboard.ListingLimit` | src/pages/AgencyDashboard.tsx:76 | the hard-coded limit; `ListingLimitIsPlanLimit` equates it with the plan table |
| `AgencyDashboard.ListingLimitIsPlanLimit` | src/pages/AgencyDashboard.tsx:76 | the hard-coded limit 5, 20 or 100 is the plan's property limit |
| `AgencyDashboard.ListingLimitFollowsPrice` | src/pages/AgencyDashboard.tsx:76 | a dearer plan allows more listings |
| `AgencyDashboard.PlanBadge` | src/pages/AgencyDashboard.tsx:48 | the badge; `BadgeShowsDisplayName` states it |
| `AgencyDashboard.BadgeShowsDisplayName` | src/pages/AgencyDashboard.tsx:48 | the badge is the plan's display name followed by " Plan" |
| `AgencyDashboard.Preview` | src/pages/AgencyDashboard.tsx:131 | `slice(0, 3)` is a prefix of at most three cards, and is the whole list or three cards |
| `AgencyDashboard.ShowViewAll` | src/pages/AgencyDashboard.tsx:148 | the "View All" condition; `ViewAllIffHidden` states it |
| `AgencyDashboard.ViewAllIffHidden` | src/pages/AgencyDashboard.tsx:148 | "View All" shows exactly when the preview hides a listing |
| `AgencyDashboard.DashboardData` | src/pages/AgencyDashboard.tsx:20-26 | the page keeps the first agency after linking, unchanged but for its derived lists, with the listings carrying its id and the linked agents carrying its id |
| `AgencyDashboard.DashboardListsFirstAgency` | src/pages/AgencyDashboard.tsx:20-26 | the listings shown are, in order, exactly the properties with the first agency's id, and the agent count is that of the raw `agencyId`s |
| `AgencyDashboard.MockDashboard` | src/pages/AgencyDashboard.tsx:131-148 | on the mock data, agency "1" previews listings "1" and "5" and shows no "View All" |
| `AgencyDashboard.Redirected` | src/pages/AgencyDashboard.tsx:28-31 | the guard: the page is left unless an agency account is signed in |
| `AgencyProfile.LookupAgency` | src/pages/AgencyProfile.tsx:37-41 | the lookup; specified by `LookupWithId` and `LookupWithoutId` |
| `AgencyProfile.LookupWithId` | src/pages/AgencyProfile.tsx:37-41 | with an id, not found exactly when no agency has it; otherwise the first agency with it |
| `AgencyProfile.LookupWithoutId` | src/pages/AgencyProfile.tsx:37-41 | without an id, the first agency, and not found only for an empty list |
| `AgencyProfile.StripScheme` | src/pages/AgencyProfile.tsx:286 | the website display; specified by `StripSchemeSuffix` and `StripSchemeOfPrefixed` |
| `AgencyProfile.StripSchemeSuffix` | src/pages/AgencyProfile.tsx:286 | the website display is a suffix of the address, shorter by 0, 7 or 8 characters, and unchanged without a leading scheme |
| `AgencyProfile.StripSchemeOfPrefixed` | src/pages/AgencyProfile.tsx:286 | a leading "https://" or "http://" is removed once, and the rest is untouched |
| `AgencyProfile.LastSegment` | src/pages/AgencyProfile.tsx:300 | `split('/').pop()`; specified by `LastSegmentSpec` and `LastSegmentOfJoin` |
| `AgencyProfile.LastSegmentSpec` | src/pages/AgencyProfile.tsx:300 | `split('/').pop()` is a suffix without '/', preceded by '/' unless it is the whole string |
| `AgencyProfile.LastSegmentOfJoin` | src/pages/AgencyProfile.tsx:300 | the text after a final "/" is the segment, and a string without '/' is its own segment |
| `AgencyProfile.InstagramHandle` | src/pages/AgencyProfile.tsx:314 | the handle is '@' followed by the last segment |
| `AgencyProfile.ContactAddress` | src/pages/AgencyProfile.tsx:325 | the shown address; `ContactAddressInjective` states it |
| `AgencyProfile.MailtoLink` | src/pages/AgencyProfile.tsx:322 | the link; `ContactAddressInjective` states that it wraps the address |
| `AgencyProfile.ContactAddressInjective` | src/pages/AgencyProfile.tsx:322-325 | the contact address starts with the user id, so different users get different addresses; the mailto link wraps it |

## Left out

- Rendering: JSX markup, styling, icons and the toast library are not modelled. Toast texts are modelled as strings the operations return.
- Routing: `Navigate` redirects are modelled only as guard predicates (`AdminDashboard.Redirected`, `AgencyDashboard.Redirected`). Links, the router and the navigation components are not modelled.
- Authentication: the auth context is not part of this model. The signed-in user is a parameter of the guard predicates.
- Timers: the one-second `setTimeout` in `CreateAgencyForm` is the gap between `StartCreate` and `CompleteCreate`. No other timing or overlapping clicks are modelled.
- `SearchContainer.RemovePriceBadgeIn`: the two updates of one click are batched into one render and one search, as React does inside an event handler. Each other filter change is one update, one render and one search. Batching across handlers and concurrent rendering are not modelled.
- `DashboardStats`: it is modelled on the lists it is given. When the page links the records relative to rendering is not modelled.
- Numbers: price, area and bedrooms are integers, and bathrooms is a real; floating point is not modelled.
- Number coercion: `Number()` is not modelled. This covers the custom price inputs at AdvancedSearchFilters.tsx:237 and 249, which store `Number(e.target.value)`.
- `Text.ParseInt`: the result is an unbounded integer. JavaScript returns a double, which loses precision above 2^53. The only caller passes the select values "0" to "6".
- `PropertyDialog.Valid`: zod's `.min(n)` counts UTF-16 code units, and the model counts characters (Unicode scalar values). A character outside the Basic Multilingual Plane counts two in the source and one in the model, so a short title of such characters passes in the source and fails in the model.
- `AdminDashboard.Dashboard.Load`: records are values in the model, so sharing between records is lost. In the source, each agency's `properties` and each agent's `properties` hold the same objects as the properties array (mockData.ts:286-292). Setting `status` to pending at AdminDashboard.tsx:31-33 therefore also changes property "1" inside agency "1"'s and agent "1"'s lists. The model changes only the cells of the properties array, and the nested copies keep their old status. No modelled operation reads the nested status after the dashboard mounts.
- `PropertiesPage.Page.constructor` and `AdminAgencyManagement.Page.constructor`: the pages seed their state from the module-level mock arrays (Properties.tsx:28, AdminAgencyManagement.tsx:20). After the admin dashboard or `initializeMockData` has written those records, the source shows the written records. The model seeds the pages from the constants as first declared.
- `PropertyDialog.ShownMessage`: zod's library is not part of this model. The integer text is the default message zod 3 gives a failed `.int()` check on a float, and the form is taken to show only the first issue of each field, as react-hook-form does without `criteriaMode: "all"`.
- `PropertyDialog.Submit`: zod and react-hook-form coerce the inputs. The model starts from the coerced values and checks only the visible length, positivity and integer rules.
- Lowercasing: `toLowerCase` is ASCII lowercasing; Unicode and locale case mapping are not modelled.
- Dates: `Date.now()`, `new Date()` and `Math.random()` are parameters. Dates are epoch milliseconds, and date formatting is not modelled.
- Images and URLs: the mock image URLs are built by one helper (`MockData.Unsplash`) rather than written out.
- `MockData.MockAgencyOneListings` and `MockData.MockOneAgentEach`: the demo-data facts are stated over each derived list, not over the whole result of `initializeMockData` on the three mock arrays. Generic lemmas connect the two.
- `AgencyDashboard.MockDashboard`: it is stated on the linked first agency, which is what `DashboardListsFirstAgency` shows the page reads. It is not stated on the whole linked data set.
- `PropertyDialog.NewDefaultsErrors`: it states which fields fail, not the order of the messages.
- `SearchContainer.CountActiveFilters`: `Object.entries` lists only the keys present in the object. In the model a missing key is an entry holding undefined, which gives the same count.
- `SearchFilters.PriceRangeChangeRejects`: it is stated for four sample inputs. The all-inputs condition is the ensures of `PriceRangeChange`.
- The status option `rejected`: the status filter offers only pending, approved and sold, although a property can be rejected (`SearchFilters.StatusOptionValues`).
