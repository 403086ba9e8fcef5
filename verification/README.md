# Agent Pricing Factory — pricing arithmetic in Dafny

The Agent Pricing Factory is a Streamlit app with four calculator pages.
The **TCO** page captures the one-time and recurring costs of running AI agents.
It keeps a cost profile for each of four tiers: Utility, Standard, Professional and Enterprise.
The **Simulation** page splits a year's work hours between agents and humans and prices both.
The **Agent Efficiency** page compares operation modes, from Manual to Autonomous.
The **Commercial Models** page holds three FTE pricing calculators (Models 1, 2 and 4).

This project models the arithmetic of those pages as pure Dafny functions over
`int` and `real`. The session state becomes input records:

- `TierProfile` holds the `tco_<field>_<tier>` values;
- `TierInput` adds the simulation's productive hours and count;
- `SimulationInput` holds the simulation widgets;
- a plain `map<string, V>` stands for the session in the TCO snapshot save and load.

Python floats are exact reals. The conversions are written out in `Numeric`:

- `int()` of a float truncates toward zero (`Trunc`);
- `math.ceil` rounds up (`Ceil`);
- `round()` rounds half to even (`Round`).

Each of them is specified by its contract. Widget bounds (`min_value`, slider ranges) appear as named predicates:
`ProfileWidgetBounds`, `TierWidgetBounds`, `InfraWidgetBounds` and `Simulation.WidgetBounds`.
A lemma assumes them only where a property needs them.
The few functions that do carry a precondition are listed under "## Left out", each with the guard or widget of the source that makes it hold.

Modules, one per file:

- `Numeric`: the conversions, guarded ceiling division, and small monotonicity facts.
- `Tiers`: the tiers and the per-tier cost profile.
- `Tco`: the TCO page's aggregates.
- `TcoProfile`: the `tco_` snapshot export and import.
- `SimulationTier`, `SimulationCapacity`, `SimulationFinancials`, `Simulation`: the simulation page, from tier rows to the financial summary.
- `CostHeuristic`: the approximate agent monthly cost. The source writes it out three times.
- `AgentEfficiency`, `CommercialModels`: the scenario calculators. `CommercialModels.Model1` and `CommercialModels.Model4` take the heuristic agent monthly cost as a parameter; the page computes it as `CostHeuristic.ApproxAgentMonthlyCost` does (app.py:650-658 and 711-713).
- `PageConsistency`: agreement between pages that compute the same quantity differently.

The source has a behaviour worth knowing, and it is modelled as written.
The simulation's blended monthly price for one agent adds that agent's amortisation to the whole tier's slab maintenance and enhancement.
Revenue then multiplies that price by the agent count (`SimulationFinancials.PriceCarriesTierMaintenance`).

## Model

| member | source | states |
|---|---|---|
| `Tco.FoundationTotal` | app.py:104-107 | the foundation total is the sum of the four one-time items |
| `Tco.LicenceTotal` | app.py:253-256 | the licence total is the sum of the four one-time licence items |
| `Tco.OneTimeTotalsBound` | app.py:104-107 | with no negative item, a one-time total is non-negative and covers every item |
| `Tco.InfraMonthly` | app.py:145-153 | token cost is tokens per month times the price per 1000 tokens; runtime cost is calls times cost per call; the total is both plus the fixed bills; within the widget bounds nothing is negative |
| `Tco.InfraIsPerAgentPlusFixed` | app.py:145-153 | the monthly bill is the fixed bills plus the same variable amount for every agent of the bundle |
| `Tco.InfraGrowsWithAgents` | app.py:145-153 | with non-negative prices, a larger bundle never costs less per month |
| `Tco.TcoBuildCost` | app.py:175-177 | the build cost truncates the hours first: for non-negative hours it is the whole hours times the rate; it is non-negative and at most hours times rate, with equality for whole hours |
| `Tco.PctOfBuildMonthly` | app.py:204-205 | a twelfth of the yearly percentage of the build cost; for a percentage in [0,100] a year of it is between 0 and the build cost |
| `Tco.HumanInLoop` | app.py:232-233 | in-loop hours are the agent hours times the human percentage over 100, between 0 and the agent hours; the cost is those hours at the human rate |
| `Tco.TcoTierFigures` | app.py:175-233 | a tier's build cost is `TcoBuildCost` of its profile; its maintenance and enhancement per month are their yearly percentages of that build cost over 1200; its in-loop effort is `HumanInLoop` |
| `TcoProfile.Export` | app.py:262 | the snapshot holds exactly the session's `tco_` keys, with the session's values |
| `TcoProfile.Import` | app.py:272-274 | loading adds or overwrites exactly the snapshot's `tco_` keys with the snapshot's values and leaves every other session entry as it was |
| `TcoProfile.LoadProfile` | app.py:269-274 | the loop over the uploaded entries, in any order of their keys, ends with `Import` |
| `TcoProfile.ImportOwnExport` | app.py:262-274 | loading the session's own snapshot leaves the session unchanged |
| `TcoProfile.ImportIdempotent` | app.py:272-274 | loading a snapshot twice is the same as loading it once |
| `TcoProfile.ExportAfterImport` | app.py:262-274 | after a load, the snapshot is the old snapshot overridden by the loaded `tco_` entries |
| `TcoProfile.SnapshotRoundTrip` | app.py:262-274 | a snapshot loaded into a session whose `tco_` keys it covers exports back as the same snapshot |
| `TcoProfile.ImportKeepsOtherKeys` | app.py:272-274 | a key without the `tco_` prefix is neither added, removed nor changed by a load |
| `SimulationTier.BuildOneTime` | app.py:318 | the build cost is hours times rate truncated: non-negative, at most the product and within one of it |
| `SimulationTier.SlabCount` | app.py:345 | the slab count is the least `s` with `s * max(1, slab) >= count`; it lies between 1 and the count for a count of at least 1 and equals the count when the slab size is at most 1 |
| `SimulationTier.SlabMaintenance` | app.py:342-346 | maintenance is 0 without agents, otherwise the per-slab charge times the slab count, between one charge and one charge per agent |
| `SimulationTier.SlabStep` | app.py:345-346 | one more full slab of agents adds exactly one slab |
| `SimulationTier.EnhYearlyTotal` | app.py:340 | the tier's yearly enhancement is the percentage of the build cost for all its agents, truncated: 0 without agents and non-negative for non-negative inputs |
| `SimulationTier.DevAmortMonth` | app.py:341 | twelve months of amortisation give back the build cost |
| `SimulationTier.MonthlyBaseCost` | app.py:348-349 | twelve months of base cost are the build cost, a year of maintenance and the yearly enhancement |
| `SimulationTier.BlendedPriceMonth` | app.py:350-356 | 0 without agents; otherwise within one half of the base cost times the CM/Trio markup; never below the rounded base cost when CM is at least Trio; never negative for a non-negative base and markup |
| `SimulationTier.MarkedUpPrice` | app.py:356 | a price marked up by a factor and rounded half to even lies within one half of the marked-up price; a factor of at least 1 never rounds below the unmarked price, a non-negative factor never gives a negative price |
| `SimulationTier.PricePerHour` | app.py:352-357 | 0 without agents or without productive hours, otherwise the blended price divided by the productive hours, rounded down |
| `SimulationTier.TierRowOf` | app.py:338-371 | a tier row with no agents shows zero maintenance, enhancement, price, price per hour, CM, Trio and capacity; capacity is always twelve months of productive hours per agent |
| `SimulationTier.TierRowNonNegative` | app.py:318-361 | within the widget bounds no figure of a tier row is negative |
| `SimulationTier.Rows` | app.py:312-378 | one row per tier, in order |
| `SimulationCapacity.Targets` | app.py:297-298 | for a ratio in [0,100] the agent target lies between 0 and the total hours and is the truncated share; for non-negative total hours the human target is the truncated remainder (at most the remainder and within one below it); for whole total hours the two targets add up to the total |
| `SimulationCapacity.TotalCapacityAppend` | app.py:403 | the total capacity, summed tier by tier from the first, grows by exactly the capacity of each further tier |
| `SimulationCapacity.TotalCapacityNonNegative` | app.py:403 | capacities that are each non-negative add up to a non-negative total |
| `SimulationCapacity.Delivered` | app.py:404 | delivered agent hours are the smaller of capacity and target, so they exceed neither |
| `SimulationCapacity.ShortfallWarning` | app.py:440-441 | the shortfall warning fires exactly when the delivered agent hours fall short of the target |
| `SimulationCapacity.SpareCapacityNotice` | app.py:442-443 | the spare-capacity notice appears exactly when some capacity is left undelivered |
| `SimulationCapacity.WarningsMatchDelivery` | app.py:440-443 | the two messages never appear together; without the warning agents deliver their whole target; with neither message capacity equals the target |
| `SimulationCapacity.InloopHours` | app.py:405 | in-loop hours lie within one half of the percentage of the delivered hours, and an exact half goes to the even neighbour; they are between 0 and the delivered hours; 0 for 0 percent or no delivery |
| `SimulationCapacity.ResidualHours` | app.py:406 | residual human hours are never negative; they are the whole part of the total minus the delivered hours, or 0 when delivery covers the total |
| `SimulationCapacity.HumanCapacityPerPerson` | app.py:408-409 | one person's annual capacity is twelve months of productive hours, positive (so a headcount is computed) exactly when the monthly hours are |
| `Numeric.CeilDiv` | app.py:409 | 0 when a person has no capacity; otherwise the least headcount whose capacity covers the hours |
| `SimulationCapacity.Allocate` | app.py:403-409 | the targets are `Targets` of the total and ratio; capacity is the tiers' total; delivery is the smaller of capacity and agent target; in-loop hours are `InloopHours` and residual hours `ResidualHours` of that delivery; human hours are residual plus in-loop hours, at least the residual; a person's capacity is twelve months of hours; the headcount is the ceiling division of the human hours |
| `SimulationCapacity.HoursConserved` | app.py:297-406 | for whole total hours, delivered plus residual hours equal the total, and the residual covers the human target |
| `SimulationFinancials.RowDirectCost` | app.py:412-415 | a tier's share of the direct cost is a year of maintenance, the yearly enhancement and an amortisation part; that part is 0 without agents, otherwise a multiple of the count whose share per agent is the year of amortisation truncated (at most the year and within one below it), and exactly the year times the count for a whole year |
| `SimulationFinancials.TotalsAppend` | app.py:411-415 | agent revenue and direct cost, summed tier by tier from the first, grow by exactly each further tier's year of revenue and its direct cost |
| `SimulationFinancials.HeadcountAppend` | app.py:447 | the agent headcount, summed tier by tier from the first, grows by exactly each further tier's count |
| `SimulationFinancials.RowDirectCostOfTier` | app.py:412-415 | a tier's share of the direct cost is every agent's build cost, a year of maintenance and the yearly enhancement |
| `SimulationFinancials.PriceCarriesTierMaintenance` | app.py:341-356 | with no build cost, one agent per slab and no markup, a year of a tier's revenue is its count times a year of its maintenance cost |
| `SimulationFinancials.NoAgentsNoAgentFigures` | app.py:403-447 | with no agent in any tier, agent capacity, revenue, direct cost and headcount are all 0 |
| `SimulationFinancials.AgentHeadcountZeroIff` | app.py:447 | with no negative count, the agent headcount is 0 exactly when every tier is empty |
| `SimulationFinancials.HumanPricingOf` | app.py:417-423 | no human hours means no price and no revenue; otherwise the price marks the cost up by CM minus Trio clamped at 0, so it is never below the cost, and revenue covers direct cost |
| `SimulationFinancials.HumanPricingCovers` | app.py:417-423 | with no negative hours or hourly cost, the human direct cost is not negative, revenue covers it, and any priced hour costs at least the blended hourly cost |
| `SimulationFinancials.CategoryMargins` | app.py:451-459 | a category shows its CM and Trio only when active, and GOP is CM minus Trio |
| `SimulationFinancials.WeightedMeanBetween` | app.py:476-477 | a mean with non-negative weights lies between the two values |
| `SimulationFinancials.RevenueBlendPct` | app.py:462-472 | the revenue blend is the share-of-total-revenue mean over the categories with positive revenue |
| `SimulationFinancials.HoursBlendPct` | app.py:474-477 | the hours blend is the hours-weighted mean of the two percentages |
| `SimulationFinancials.BlendPct` | app.py:462-480 | revenue-weighted when total revenue is positive, else hours-weighted when there are hours, else 0 |
| `SimulationFinancials.CombinedBlend` | app.py:462-481 | combined CM and Trio follow the three-way fallback, and combined GOP is combined CM minus combined Trio |
| `SimulationFinancials.BlendPctBetween` | app.py:462-480 | with non-negative revenues and hours, a blended percentage lies between the two categories' percentages |
| `SimulationFinancials.CombinedBlendBetween` | app.py:462-481 | combined CM and Trio each lie between the agent's and the human's values |
| `SimulationFinancials.TotalsOf` | app.py:425-429 | total revenue and cost add up both categories; contribution is revenue minus cost; the Trio amount is each revenue's Trio share; GOP is contribution minus Trio |
| `SimulationFinancials.TrueMarginsOf` | app.py:498-499 | true CM and GOP are contribution and GOP as percentages of a positive revenue, else 0 |
| `SimulationFinancials.TrueGopIsCmLessTrioShare` | app.py:498-499 | true GOP is true CM less the Trio amount's share of revenue |
| `SimulationFinancials.CostPerHour` | app.py:449 | the cost per hour times the hours gives back the cost, and it is 0 without hours |
| `SimulationFinancials.HumanCostMonth` | app.py:456 | twelve months give back a positive annual human cost, and it is 0 otherwise |
| `Simulation.Simulate` | app.py:283-499 | the page end to end: agent revenue, direct cost and headcount are the tier sums; the totals and true margins are `TotalsOf` and `TrueMarginsOf` of the two categories; the agent and combined lines' cost per hour is `CostPerHour` of their direct cost and twelve of their monthly costs give back that cost, while the human line shows the blended hourly cost and `HumanCostMonth` of its cost; the agent and human lines show their categories' CM and Trio, and the combined line shows the `CombinedBlend` of them; the lines add up to the combined line in headcount and hours; every GOP is CM minus Trio; the warnings match the delivery |
| `Simulation.AgentRevenueNonNegative` | app.py:411 | revenue over tiers with no negative price or count is non-negative |
| `Simulation.RowsNonNegative` | app.py:318-361 | within the widget bounds no row has a negative figure |
| `Simulation.AllocationInvariants` | app.py:297-409 | delivery is bounded by capacity and target; for whole total hours the hours are conserved and humans cover their target; the headcount is the least that covers the human hours |
| `Simulation.HumanPricingInvariants` | app.py:417-423 | within the widget bounds human revenue covers the non-negative human cost, and the hourly price is at least the hourly cost |
| `Simulation.CombinedBetweenCategories` | app.py:447-481 | whenever there is revenue or there are hours, the combined CM and Trio lie between the agent's and the human's displayed percentages |
| `Simulation.NoAgentsAllHuman` | app.py:403-453 | with no agents the agent line is all zero and the residual human hours are the whole total |
| `CostHeuristic.InfraSharePerAgent` | app.py:619 | the recurring licence shared over at least one agent: the share times the bundle size gives back the licence, and the share is at most the licence |
| `CostHeuristic.ApproxAgentMonthlyCost` | app.py:651-658 | the average build times the tier count is the sum of the build costs; 36 months of amortisation give back the average build; maintenance is the average percentage of the average build over 1200; the total is the three parts |
| `CostHeuristic.EfficiencyApproxCost` | app.py:605-620 | the Agent Efficiency loop gives the same cost as the Commercial Models form for any non-empty list of tiers, and only the licence share for none |
| `CostHeuristic.SameMaintenance` | app.py:618 | spreading the percentage over 100 and then 12 equals spreading it over 1200 |
| `CostHeuristic.UniformTiersCost` | app.py:712-713 | when every tier has the same build cost and maintenance percentage, the heuristic is that build over 36 months plus its maintenance share plus the licence share |
| `CostHeuristic.HeuristicNonNegative` | app.py:651-658 | within the widget bounds the heuristic is non-negative and at least the licence share |
| `AgentEfficiency.TotalHours` | app.py:567-568 | sixty times a mode's annual hours is its minutes per case times the cases |
| `AgentEfficiency.ModeResultOf` | app.py:566-573 | the FTEs are the ceiling of the hours over the FTE hours, so they cover the hours and one fewer would not; cost is hours at the hourly cost; savings are the share of the manual hours saved, or 0 when manual takes no time |
| `AgentEfficiency.FteIsLeast` | app.py:569-570 | no smaller FTE count covers a mode's hours |
| `AgentEfficiency.SavingsIndependentOfCases` | app.py:556-573 | the savings percentage is the share of the manual time saved, whatever the number of cases |
| `AgentEfficiency.SavingsSign` | app.py:573 | the manual mode saves 0; a faster mode saves a positive share, a slower one a negative share; no mode saves more than 100 % |
| `AgentEfficiency.FasterModeNeedsLess` | app.py:566-570 | a faster mode needs no more hours and no more FTEs |
| `AgentEfficiency.ModeResults` | app.py:556-583 | one row per mode, each measured against the first (manual) mode |
| `AgentEfficiency.DefaultSavingsOrdered` | app.py:527-532 | with the default times, savings are 0 for Manual and rise strictly from Assistive to Autonomous, staying below 100 % |
| `AgentEfficiency.QuickViewPrice` | app.py:624-628 | the per-mode price is the heuristic cost marked up by the margin, truncated: non-negative, within one of the marked-up cost, and at least the truncated cost |
| `CommercialModels.WithMargin` | app.py:660 | a price marked up by a margin percentage, never below a non-negative cost for a non-negative margin |
| `CommercialModels.Model1` | app.py:659-676 | the agents needed are the ceiling division of the FTEs' monthly hours; the saving is human cost minus agent price; the warning fires exactly when the agents cost more |
| `CommercialModels.Model1Coverage` | app.py:663-666 | the agents' hours cover the humans' hours and one agent fewer would not; no FTEs means no agents and no saving |
| `CommercialModels.Model1MarginLowersSavings` | app.py:659-670 | a higher agent margin never increases the monthly saving |
| `CommercialModels.Model2` | app.py:684-691 | hours saved are the time saved per case times the cases; the FTE equivalent times 1920 gives back the hours; the saving is those hours at the hourly cost |
| `CommercialModels.Model2Sign` | app.py:684-691 | hours are saved exactly when the new time is shorter, none exactly when the times are equal; a positive saving frees a positive number of FTEs |
| `CommercialModels.Model4` | app.py:701-724 | agent and human hours add up to the total; steady and burst hours add up to the human hours; a positive override replaces the heuristic price; the agents needed are the least whose annual hours cover the agent share |
| `CommercialModels.Model4Bounds` | app.py:701-718 | for percentages in [0,100] every share lies between 0 and what it is a share of, and no fewer agents cover the agent hours |
| `PageConsistency.BuildCostsAgree` | app.py:175-177 | the TCO build cost never exceeds the untruncated heuristic build cost; for whole hours the two are equal and the simulation's build cost is their truncation |
| `PageConsistency.EnhancementAgrees` | app.py:205 | for the same whole build cost, twelve months of the TCO page's monthly enhancement for every agent of a tier, truncated, equal the simulation page's annual enhancement for the tier (app.py:340) |
| `PageConsistency.Model2MatchesEfficiency` | app.py:684 | Model 2's hours saved are the Agent Efficiency hours at the old time minus those at the new time |

## Left out

- Streamlit widgets, layout, metrics, the sidebar router and the static Home table are not modelled. They are UI; their values arrive as parameters, and their `min_value` and slider ranges appear as the widget-bound predicates.
- Session defaulting through `st.session_state.get(..., DEFAULTS[...])` (app.py:59-62, 170, 316-322) is not modelled. The values it yields are the input record fields.
- `json.dumps`, `json.load`, the file upload and download, and the failure path (app.py:264-267, 277-278) are not modelled. The snapshot is a map whose parsing is given.
- The rerun after a load (app.py:276) is not modelled. The page simply recomputes from the new session.
- pandas tables, the CSV and XLSX exports and `currency` formatting are not modelled. They are serialisation through libraries not shown here.
- IEEE-754 floating point is not modelled. Every float is an exact real, so rounding errors of float arithmetic are not modelled.
- `Numeric.Round` models `round()` exactly (half to even) on exact reals. A float tie that binary arithmetic moves off its half is not reproduced.
- The Agent Efficiency per-mode session-key initialisation and the editable time widgets (app.py:550-553, 590-599) are not modelled. They are UI state handling; the times arrive as a sequence, Manual first.
- Display-only conversions are not modelled: `int(...)` in table cells, `round(time_hr, 4)`, and the `f"{x:.2f}"` strings.
- `total_build` (app.py:339) is not modelled. It is computed but never used.
- `AgentEfficiency.ModeResultOf` requires at least one FTE hour a year. The source divides by that value unguarded, and its widget enforces the minimum of 1.
- `AgentEfficiency.ModeResults` requires a non-empty list of times and at least one FTE hour a year. The source's mode list is a fixed list of four (app.py:527-532), and the FTE-hours widget enforces the minimum of 1.
- `CostHeuristic.ApproxAgentMonthlyCost` requires a non-empty list of tiers. The source divides by the length of its fixed four-tier list.
- `TcoProfile.LoadProfile` requires that its key sequence lists exactly the uploaded map's keys. This stands in for iterating the dictionary's items.
- `TcoProfile.Import` writes every `tco_` entry unconditionally (app.py:274). Streamlit refuses a write to the key of a widget already drawn in the same run (the TCO widgets, app.py:87-251), and that error would end in the failure branch at app.py:277. The round-trip lemmas hold for the idealised write.
- `SimulationFinancials.WeightedMean` and `SimulationFinancials.RevenueShareMean` require a non-zero total weight. They are used only inside the blends below.
- `SimulationFinancials.RevenueBlendPct` requires a positive total revenue. The source reaches it only in the `total_revenue_ann > 0` branch (app.py:462).
- `SimulationFinancials.HoursBlendPct` requires positive total hours. The source reaches it only in the `tot_hr > 0` branch (app.py:475); `BlendPct` falls back to 0 otherwise.
