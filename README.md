# Land-sales search query encoder

This project models the "Land Sales" panel of the viewer's Find directory
(`LLPanelDirLand`). When the user searches, the panel reads:

- the three maturity checkboxes (PG, Mature, Adult);
- the land-type combo;
- the gaming-filter checkbox;
- the sort column and direction of the results list;
- the price and area limit checkboxes and their edit fields;
- the agent's mature and adult access and their "PG only" preference.

From these it builds one `DirLandQuery` message. That message holds a search
type (`ST_*`), a query-flags word (`DFQ_*` bits), the raw price and area values,
and the search id and result offset of the enclosing directory browser. When no
maturity tier is ticked, the panel sends nothing and shows the
"NoContentToSearch" notice instead.

The model also covers three smaller behaviours:
- When a limit checkbox is committed, its edit field's enabled state becomes the
  committed value.
- When it is built, it clears and disables a maturity checkbox the agent may not
  use.
- It shows the gaming filter only in regions that ask for it.

Files:

- `query_flags.dfy` (module `QueryFlags`) names the flag bits and search types
  symbolically. The numeric `DFQ_*`/`ST_*` values live in `llqueryflags.h`, which
  is not part of this model. So the flags word is a `set<QueryFlag>`, and no
  property depends on bit positions.
- `panel_dir_land.dfy` (module `PanelDirLand`) holds three layers:
  - The specification functions. `SearchTypeOf` is the label dispatch.
    `QueryFlagsOf` is the flags word, in the encoder's own order, built from
    `MaturityFlags` and `SortedFlags`. `EncodeQuery` is the whole request.
  - Two independent readings of the flags word, with lemmas tying them to
    `QueryFlagsOf`. `Raised` gives one condition per bit. The `Step`s, their
    `Contribution`s and `Accumulate` give the chain of `|=` updates as a fold.
  - The `DirLandPanel` class. Its fields are the widget values, and its methods
    are `PerformQuery` (with the helpers `ReadSearchType` and `ReadQueryFlags`),
    `OnCommitPrice`, `OnCommitArea` and `PostBuild`.

`PerformQuery` is proved equal to `EncodeQuery` on the panel's current widget
values. Every property below is proved about those specification functions.

Notes on the code, each followed by the model:

- The code never compares the label with "All Types". Like any other
  unrecognised text, it falls through to `ST_ALL`.
- When both PG and Mature are ticked, neither legacy condition holds. But
  `DFQ_PG_SIMS_ONLY` is still set when the agent wants PG only, because the same
  bit is ORed in from that preference (line 184).
- The sort-direction bit is only looked at when the results list exists. With no
  list there is no sort-key bit and no `DFQ_SORT_ASC`.

## Model

| member | source | states |
|---|---|---|
| PanelDirLand.SearchTypeOf | indra/newview/llpaneldirland.cpp:174-181 | "Auction", "Mainland Sales" and "Estate Sales" select exactly ST_AUCTION, ST_MAINLAND and ST_ESTATE; every other label, the empty one and "All Types" included, selects ST_ALL |
| PanelDirLand.DirLandPanel.ReadSearchType | indra/newview/llpaneldirland.cpp:174-181 | the if-chain over the combo's label yields the search type `SearchTypeOf` assigns to that label |
| PanelDirLand.EncodeQuery | indra/newview/llpaneldirland.cpp:158-271 | the request is rejected (NoContentToSearch) iff none of PG, Mature, Adult is ticked; otherwise exactly one message is built, carrying the agent and session ids, the browser's query id and start offset, `SearchTypeOf(label)`, the flags word `QueryFlagsOf(form, agent)` and the raw price and area values |
| PanelDirLand.DirLandPanel.ReadQueryFlags | indra/newview/llpaneldirland.cpp:183-257 | the local flags word, built by one `|=` per condition in source order, ends equal to `QueryFlagsOf` of the panel's widget values and the agent |
| PanelDirLand.DirLandPanel.PerformQuery | indra/newview/llpaneldirland.cpp:158-271 | the outcome of a search is `EncodeQuery` of the panel's current widget values, the agent and the browser state |
| PanelDirLand.Accumulate | indra/newview/llpaneldirland.cpp:183-257 | applying `|=` steps never clears a bit: the starting word is contained in the result |
| PanelDirLand.AccumulateMembership | indra/newview/llpaneldirland.cpp:183-257 | a bit is in the accumulated word iff it was in the starting word or some applied step contributes it |
| PanelDirLand.AccumulateAppend | indra/newview/llpaneldirland.cpp:183-257 | applying two runs of steps one after the other is the same as applying their concatenation |
| PanelDirLand.IntermediateFlagsGrow | indra/newview/llpaneldirland.cpp:183-257 | the word after the first i updates is contained in the word after the first j >= i updates, and in the final flags word |
| PanelDirLand.StepsYieldQueryFlags | indra/newview/llpaneldirland.cpp:183-257 | ORing the contributions of the encoder's steps, in any order (repeats allowed), into the empty word gives exactly `QueryFlagsOf` |
| PanelDirLand.RaisingStep | indra/newview/llpaneldirland.cpp:183-257 | every bit whose condition holds is contributed by some step of the encoder |
| PanelDirLand.ContributionSound | indra/newview/llpaneldirland.cpp:183-257 | a step contributes only bits whose condition holds |
| PanelDirLand.MaturityFlagExact | indra/newview/llpaneldirland.cpp:183-218 | proof step toward QueryFlagsExact: the preference, inclusion, gaming and legacy bits of the final word are exactly those ORed in before the results list is read |
| PanelDirLand.InclusionFlagExact | indra/newview/llpaneldirland.cpp:186-207 | proof step toward QueryFlagsExact: INC_PG, INC_MATURE, INC_ADULT and FILTER_GAMING are each in the word iff their condition holds |
| PanelDirLand.LegacyFlagExact | indra/newview/llpaneldirland.cpp:183-218 | proof step toward QueryFlagsExact: PG_SIMS_ONLY and MATURE_SIMS_ONLY are each in the word iff their condition holds |
| PanelDirLand.SortFlagFromSortedFlags | indra/newview/llpaneldirland.cpp:220-247 | proof step toward QueryFlagsExact: a sort-key or direction bit is in the word iff there is a results list and its sort column or direction contributes it |
| PanelDirLand.SortFlagExact | indra/newview/llpaneldirland.cpp:220-247 | proof step toward QueryFlagsExact: the four sort-key bits and SORT_ASC are each in the word iff their condition holds |
| PanelDirLand.QueryFlagsExact | indra/newview/llpaneldirland.cpp:183-257 | every flag is in the query's flags word iff its own condition holds, one condition per bit |
| PanelDirLand.InclusionBits | indra/newview/llpaneldirland.cpp:186-202 | INC_PG iff PG is ticked; INC_MATURE iff Mature is ticked and mature access is granted; INC_ADULT iff Adult is ticked and adult access is granted; without the access the bit is never set |
| PanelDirLand.LegacyBits | indra/newview/llpaneldirland.cpp:183-218 | MATURE_SIMS_ONLY iff Mature without PG; PG_SIMS_ONLY iff the agent wants PG only or PG without Mature, both from the raw checkbox values; unless the agent wants PG only, the two are never both set |
| PanelDirLand.AccessAffectsOnlyGatedBits | indra/newview/llpaneldirland.cpp:183-218 | two agents that differ only in mature and adult access get the same value for every bit other than INC_MATURE and INC_ADULT |
| PanelDirLand.SortBitsOfExact | indra/newview/llpaneldirland.cpp:226-241 | a sort-key bit is chosen iff the sort column's name equals that key's name exactly |
| PanelDirLand.SortKeyBit | indra/newview/llpaneldirland.cpp:220-241 | a sort-key bit is in the word iff there is a results list whose sort column has that key's name; with no list, no key is set |
| PanelDirLand.SortDirectionBit | indra/newview/llpaneldirland.cpp:220-247 | SORT_ASC is in the word iff there is a results list sorted ascending |
| PanelDirLand.AtMostOneSortKey | indra/newview/llpaneldirland.cpp:226-241 | any two sort-key bits in the word are the same bit: at most one is set |
| PanelDirLand.UnknownSortColumnSetsNoKey | indra/newview/llpaneldirland.cpp:226-241 | a sort column that is none of "name", "price", "per_meter", "area" sets no sort-key bit |
| PanelDirLand.LimitAndGamingBits | indra/newview/llpaneldirland.cpp:204-257 | LIMIT_BY_PRICE iff the price checkbox is on, LIMIT_BY_AREA iff the area checkbox is on, FILTER_GAMING iff the gaming checkbox is on |
| PanelDirLand.LimitCheckboxesOnlySwitchTheirBits | indra/newview/llpaneldirland.cpp:249-268 | changing the limit checkboxes changes only the two LIMIT bits; the price and area values and every other part of the message stay the same |
| PanelDirLand.MainlandSaleExample | indra/newview/llpaneldirland.cpp:158-271 | PG only, "Mainland Sales", price limit 500, sorted by area descending, agent with no mature or adult access: flags {INC_PG, PG_SIMS_ONLY, LIMIT_BY_PRICE, AREA_SORT}, ST_MAINLAND, price 500 |
| PanelDirLand.DirLandPanel.OnCommitPrice | indra/newview/llpaneldirland.cpp:148-151 | the price field becomes enabled iff the committed value is true; no widget value a query reads changes |
| PanelDirLand.DirLandPanel.OnCommitArea | indra/newview/llpaneldirland.cpp:153-156 | the area field becomes enabled iff the committed value is true; no widget value a query reads changes |
| PanelDirLand.DirLandPanel.PostBuild | indra/newview/llpaneldirland.cpp:80-130 | the PG checkbox is shown. A maturity checkbox the agent lacks access to is cleared and disabled; otherwise it is untouched. The gaming filter is shown iff the region has gaming content and does not hide it from the land search. Afterwards no INC_MATURE, MATURE_SIMS_ONLY or INC_ADULT bit can come from a tier the agent lacks |

## Left out

- Message construction and sending (lines 259-270) are transport I/O. The message is the returned `DirLandQuery` record.
- The "NoContentToSearch" notice (line 165) is the `NoContentToSearch` outcome, not a call into the notification system.
- `setupNewSearch`, `getSearchID` and `mSearchStart` belong to the base class `LLPanelDirBrowser`, which is not part of this model. Their effect is the `BrowserState` input, meaning the search id and start offset after a new search has been set up.
- `updateMaturityCheckbox` and `draw` also belong to `LLPanelDirBrowser`, which is not part of this model.
- Widget plumbing is UI wiring and is not modelled: callback binding, the default button, child lookups, and the results list's initial sort column "per_meter" (lines 94-105, 112-116).
- Currency-symbol and column-label formatting (lines 107-108, 118-126) is localisation over libraries not shown.
- Persisted settings and the status-bar balance (lines 78, 97-101) are global application state. This covers the initial land type, the initial price value, and the initial enabled state of the edit fields.
- The text-to-integer conversion of the edit fields (`asInteger`) and their non-negative input validation are widget behaviour. The fields hold `int32` values.
- The region's gaming flags are bits defined in a header outside this model. `RegionGaming` holds the two tested conditions as booleans, and a missing region is `None`.
- The numeric `DFQ_*` and `ST_*` values, and the packing of flags into a 32-bit word, come from `llqueryflags.h`, which is not part of this model.
- PanelDirLand.DirLandPanel.ReadQueryFlags writes each `if (c) query_flags |= X;` as one update with the word `Bit(c, X)`. It writes the sort-name else-if chain (lines 226-241) as one update with `SortBitsOf(sort_name)`, the same classification as a function. The `if (list)` block and the source order are kept.
- PanelDirLand.DirLandPanel.PerformQuery takes the search-type chain and the flag building as two helper methods of the class, `ReadSearchType` and `ReadQueryFlags`. They read the same widgets as the source's single function body. The checkbox values are read again there instead of being passed on; nothing changes between the reads.
