/** The "Land Sales" panel of the Find directory: it reads its filter widgets and
    the agent's access, and encodes them into one directory land query
    (performQuery), and it keeps two edit fields and the maturity checkboxes in
    step with the agent's choices and access (onCommitPrice, onCommitArea and the
    access gating of postBuild). */
module PanelDirLand {
  import opened QueryFlags

  datatype Option<T> = None | Some(value: T)

  /** An agent, session or query identifier; its content is opaque here. */
  type Uuid = seq<bv8>

  // Labels of the land-type combo box.  "All Types" is one of the entries but
  // the dispatch never compares against it: it falls to the default.
  const FindAllTypes: string := "All Types"
  const FindAuction: string := "Auction"
  const FindMainlandSales: string := "Mainland Sales"
  const FindEstateSales: string := "Estate Sales"

  /** The sort state of the results list: the name of the sort column and its direction. */
  datatype SortState = SortState(column: string, ascending: bool)

  /** The values of the panel's widgets that a query reads. `results` is None when
      the panel has no results list. */
  datatype FormState = FormState(
    incPg: bool, incMature: bool, incAdult: bool,
    landType: string,
    filterGaming: bool,
    results: Option<SortState>,
    priceCheck: bool, price: int32,
    areaCheck: bool, area: int32)

  /** What the query needs to know about the logged-in agent. */
  datatype Agent = Agent(
    id: Uuid, sessionId: Uuid,
    canAccessMature: bool, canAccessAdult: bool,
    wantsPgOnly: bool)

  /** The search identifier and result offset owned by the enclosing directory
      browser after it has set up a new search. */
  datatype BrowserState = BrowserState(searchId: Uuid, searchStart: int32)

  /** The gaming flags of the agent's current region. */
  datatype RegionGaming = RegionGaming(gamingPresent: bool, hideFindLand: bool)

  /** The DirLandQuery message: AgentData and QueryData blocks. */
  datatype DirLandQuery = DirLandQuery(
    agentId: Uuid, sessionId: Uuid,
    queryId: Uuid,
    queryFlags: set<QueryFlag>,
    searchType: SearchType,
    price: int32, area: int32,
    queryStart: int32)

  /** Either the "NoContentToSearch" notice (nothing is sent) or the one message sent. */
  datatype QueryOutcome = NoContentToSearch | Send(query: DirLandQuery)

  // ---------------------------------------------------------------------------
  // Search type
  // ---------------------------------------------------------------------------

  /** The search type selected by the land-type label: an exact match of one of
      the three sale labels, and ST_ALL for every other text, the empty one included. */
  function SearchTypeOf(typeLabel: string): (r: SearchType)
    ensures r == Auction <==> typeLabel == FindAuction
    ensures r == Mainland <==> typeLabel == FindMainlandSales
    ensures r == Estate <==> typeLabel == FindEstateSales
    ensures r == AllTypes <==> typeLabel !in {FindAuction, FindMainlandSales, FindEstateSales}
    ensures typeLabel == FindAllTypes || typeLabel == [] ==> r == AllTypes
  {
    if typeLabel == [] then AllTypes
    else if typeLabel == FindAuction then Auction
    else if typeLabel == FindMainlandSales then Mainland
    else if typeLabel == FindEstateSales then Estate
    else AllTypes
  }

  // ---------------------------------------------------------------------------
  // The flags word, bit by bit
  // ---------------------------------------------------------------------------

  /** The sort-key bit named by a sort column: a one-element word for each of the
      four known column names, the empty word for any other name. */
  function SortBitsOf(column: string): (r: set<QueryFlag>)
    ensures r <= SortKeyBits
  {
    if column == "name" then {NameSort}
    else if column == "price" then {PriceSort}
    else if column == "per_meter" then {PerMeterSort}
    else if column == "area" then {AreaSort}
    else {}
  }

  /** The word holding just `f` when `condition` holds, the empty word otherwise:
      what `if (condition) query_flags |= f` ORs in. */
  function Bit(condition: bool, f: QueryFlag): set<QueryFlag>
  {
    if condition then {f} else {}
  }

  /** The condition under which a land query carries flag `f`: the declarative
      reading of the query encoder, one condition per bit. */
  predicate Raised(f: QueryFlag, form: FormState, agent: Agent)
  {
    match f
    case PgSimsOnly => agent.wantsPgOnly || (form.incPg && !form.incMature)
    case MatureSimsOnly => !form.incPg && form.incMature
    case IncPg => form.incPg
    case IncMature => form.incMature && agent.canAccessMature
    case IncAdult => form.incAdult && agent.canAccessAdult
    case FilterGaming => form.filterGaming
    case NameSort => form.results.Some? && NameSort in SortBitsOf(form.results.value.column)
    case PriceSort => form.results.Some? && PriceSort in SortBitsOf(form.results.value.column)
    case PerMeterSort => form.results.Some? && PerMeterSort in SortBitsOf(form.results.value.column)
    case AreaSort => form.results.Some? && AreaSort in SortBitsOf(form.results.value.column)
    case SortAsc => form.results.Some? && form.results.value.ascending
    case LimitByPrice => form.priceCheck
    case LimitByArea => form.areaCheck
  }

  // ---------------------------------------------------------------------------
  // The flags word, step by step
  // ---------------------------------------------------------------------------

  /** One `query_flags |= ...` update of the encoder. */
  datatype Step =
    | WantsPgOnlyStep
    | IncPgStep
    | IncMatureStep
    | IncAdultStep
    | GamingStep
    | LegacyPgStep
    | LegacyMatureStep
    | SortColumnStep
    | SortDirectionStep
    | PriceLimitStep
    | AreaLimitStep

  /** The steps in the order the encoder takes them. */
  const SourceSteps: seq<Step> := [
    WantsPgOnlyStep, IncPgStep, IncMatureStep, IncAdultStep, GamingStep,
    LegacyPgStep, LegacyMatureStep, SortColumnStep, SortDirectionStep,
    PriceLimitStep, AreaLimitStep]

  /** The bits one step ORs into the flags word. */
  function Contribution(s: Step, form: FormState, agent: Agent): set<QueryFlag>
  {
    match s
    case WantsPgOnlyStep => Bit(agent.wantsPgOnly, PgSimsOnly)
    case IncPgStep => Bit(form.incPg, IncPg)
    case IncMatureStep => Bit(form.incMature && agent.canAccessMature, IncMature)
    case IncAdultStep => Bit(form.incAdult && agent.canAccessAdult, IncAdult)
    case GamingStep => Bit(form.filterGaming, FilterGaming)
    case LegacyPgStep => Bit(form.incPg && !form.incMature, PgSimsOnly)
    case LegacyMatureStep => Bit(!form.incPg && form.incMature, MatureSimsOnly)
    case SortColumnStep => if form.results.None? then {} else SortBitsOf(form.results.value.column)
    case SortDirectionStep => Bit(form.results.Some? && form.results.value.ascending, SortAsc)
    case PriceLimitStep => Bit(form.priceCheck, LimitByPrice)
    case AreaLimitStep => Bit(form.areaCheck, LimitByArea)
  }

  /** The flags word after applying `steps`, in order, to the word `acc`.
      Every step only ORs bits in, so the word never loses a bit. */
  function Accumulate(acc: set<QueryFlag>, steps: seq<Step>, form: FormState, agent: Agent): (r: set<QueryFlag>)
    ensures acc <= r
    decreases |steps|
  {
    if steps == [] then acc
    else Accumulate(acc + Contribution(steps[0], form, agent), steps[1..], form, agent)
  }

  /** The bits ORed in before the sort is looked at: the PG-only preference, the
      three inclusion bits (mature and adult only with the agent's access), the
      gaming filter, and the two legacy bits that old data servers read. */
  function MaturityFlags(form: FormState, agent: Agent): set<QueryFlag>
  {
    {}
    + Bit(agent.wantsPgOnly, PgSimsOnly)
    + Bit(form.incPg, IncPg)
    + Bit(form.incMature && agent.canAccessMature, IncMature)
    + Bit(form.incAdult && agent.canAccessAdult, IncAdult)
    + Bit(form.filterGaming, FilterGaming)
    + Bit(form.incPg && !form.incMature, PgSimsOnly)
    + Bit(!form.incPg && form.incMature, MatureSimsOnly)
  }

  /** The word `acc` with the sort key and direction of the results list ORed in,
      when there is a results list. */
  function SortedFlags(acc: set<QueryFlag>, results: Option<SortState>): set<QueryFlag>
  {
    if results.None? then acc
    else acc + SortBitsOf(results.value.column) + Bit(results.value.ascending, SortAsc)
  }

  /** The flags word of a land query, ORed together in the encoder's order. */
  function QueryFlagsOf(form: FormState, agent: Agent): set<QueryFlag>
  {
    SortedFlags(MaturityFlags(form, agent), form.results)
    + Bit(form.priceCheck, LimitByPrice)
    + Bit(form.areaCheck, LimitByArea)
  }

  /** The whole request: rejected when no maturity tier is chosen, otherwise the
      one DirLandQuery message, which carries the price and area edit values as
      they stand, whatever the limit checkboxes say. */
  function EncodeQuery(form: FormState, agent: Agent, browser: BrowserState): (r: QueryOutcome)
    ensures r.NoContentToSearch? <==> !(form.incPg || form.incMature || form.incAdult)
    ensures r.Send? ==> r.query.price == form.price && r.query.area == form.area
    ensures r.Send? ==> r.query.searchType == SearchTypeOf(form.landType)
    ensures r.Send? ==> r.query.queryFlags == QueryFlagsOf(form, agent)
    ensures r.Send? ==> r.query.agentId == agent.id && r.query.sessionId == agent.sessionId
    ensures r.Send? ==> r.query.queryId == browser.searchId && r.query.queryStart == browser.searchStart
  {
    if !(form.incPg || form.incMature || form.incAdult) then NoContentToSearch
    else Send(DirLandQuery(
      agent.id, agent.sessionId, browser.searchId,
      QueryFlagsOf(form, agent), SearchTypeOf(form.landType),
      form.price, form.area, browser.searchStart))
  }

  /** Whether the gaming filter checkbox is shown: only in a region that has
      gaming content and does not hide the filter from the land search. */
  predicate GamingFilterShown(region: Option<RegionGaming>)
  {
    region.Some? && region.value.gamingPresent && !region.value.hideFindLand
  }

  // ---------------------------------------------------------------------------
  // Lemmas about the flags word
  // ---------------------------------------------------------------------------

  /** A bit is in the accumulated word iff it was there to begin with or some step contributes it. */
  lemma {:induction false} AccumulateMembership(acc: set<QueryFlag>, steps: seq<Step>, form: FormState, agent: Agent, f: QueryFlag)
    ensures f in Accumulate(acc, steps, form, agent) <==>
            f in acc || exists s :: s in steps && f in Contribution(s, form, agent)
    decreases |steps|
  {
    if steps != [] {
      var acc' := acc + Contribution(steps[0], form, agent);
      AccumulateMembership(acc', steps[1..], form, agent, f);
      assert forall s :: s in steps <==> s == steps[0] || s in steps[1..] by {
        assert steps == [steps[0]] + steps[1..];
      }
    }
  }

  /** Applying `s1 + s2` is applying `s1`, then `s2` to the word it produced. */
  lemma {:induction false} AccumulateAppend(acc: set<QueryFlag>, s1: seq<Step>, s2: seq<Step>, form: FormState, agent: Agent)
    ensures Accumulate(acc, s1 + s2, form, agent) ==
            Accumulate(Accumulate(acc, s1, form, agent), s2, form, agent)
    decreases |s1|
  {
    if s1 != [] {
      assert (s1 + s2)[0] == s1[0];
      assert (s1 + s2)[1..] == s1[1..] + s2;
      AccumulateAppend(acc + Contribution(s1[0], form, agent), s1[1..], s2, form, agent);
    } else {
      assert s1 + s2 == s2;
    }
  }

  /** The flags word only grows along the encoder: the word after the first `i`
      steps is contained in the word after the first `j >= i` steps, and in the final word. */
  lemma IntermediateFlagsGrow(form: FormState, agent: Agent, i: nat, j: nat)
    requires i <= j <= |SourceSteps|
    ensures Accumulate({}, SourceSteps[..i], form, agent) <= Accumulate({}, SourceSteps[..j], form, agent)
    ensures Accumulate({}, SourceSteps[..j], form, agent) <= QueryFlagsOf(form, agent)
  {
    var s := SourceSteps;
    assert s[..j] == s[..i] + s[i..j];
    AccumulateAppend({}, s[..i], s[i..j], form, agent);
    assert s == s[..j] + s[j..];
    AccumulateAppend({}, s[..j], s[j..], form, agent);
    StepsYieldQueryFlags(s, form, agent);
  }

  /** The step that ORs in a raised flag. */
  function RaisingStep(f: QueryFlag, form: FormState, agent: Agent): (s: Step)
    requires Raised(f, form, agent)
    ensures s in SourceSteps && f in Contribution(s, form, agent)
  {
    match f
    case PgSimsOnly => if agent.wantsPgOnly then WantsPgOnlyStep else LegacyPgStep
    case MatureSimsOnly => LegacyMatureStep
    case IncPg => IncPgStep
    case IncMature => IncMatureStep
    case IncAdult => IncAdultStep
    case FilterGaming => GamingStep
    case NameSort => SortColumnStep
    case PriceSort => SortColumnStep
    case PerMeterSort => SortColumnStep
    case AreaSort => SortColumnStep
    case SortAsc => SortDirectionStep
    case LimitByPrice => PriceLimitStep
    case LimitByArea => AreaLimitStep
  }

  /** A step contributes only flags whose condition holds. */
  lemma ContributionSound(s: Step, form: FormState, agent: Agent, f: QueryFlag)
    requires f in Contribution(s, form, agent)
    ensures Raised(f, form, agent)
  {
  }

  /** A bit decided before the sort is looked at is in the word exactly when it
      is in MaturityFlags. */
  lemma MaturityFlagExact(form: FormState, agent: Agent, f: QueryFlag)
    requires f in {PgSimsOnly, MatureSimsOnly, IncPg, IncMature, IncAdult, FilterGaming}
    ensures f in QueryFlagsOf(form, agent) <==> f in MaturityFlags(form, agent)
  {
  }

  /** The inclusion and gaming bits. */
  lemma InclusionFlagExact(form: FormState, agent: Agent, f: QueryFlag)
    requires f in {IncPg, IncMature, IncAdult, FilterGaming}
    ensures f in QueryFlagsOf(form, agent) <==> Raised(f, form, agent)
  {
    MaturityFlagExact(form, agent, f);
  }

  /** The two legacy bits. */
  lemma LegacyFlagExact(form: FormState, agent: Agent, f: QueryFlag)
    requires f in {PgSimsOnly, MatureSimsOnly}
    ensures f in QueryFlagsOf(form, agent) <==> Raised(f, form, agent)
  {
    MaturityFlagExact(form, agent, f);
  }

  /** A sort bit is in the word exactly when SortedFlags adds it. */
  lemma SortFlagFromSortedFlags(form: FormState, agent: Agent, f: QueryFlag)
    requires f in SortKeyBits || f == SortAsc
    ensures f in QueryFlagsOf(form, agent) <==>
            form.results.Some? && f in SortBitsOf(form.results.value.column) + Bit(form.results.value.ascending, SortAsc)
  {
    assert f !in MaturityFlags(form, agent);
  }

  /** The sort-key and sort-direction bits. */
  lemma SortFlagExact(form: FormState, agent: Agent, f: QueryFlag)
    requires f in SortKeyBits || f == SortAsc
    ensures f in QueryFlagsOf(form, agent) <==> Raised(f, form, agent)
  {
    SortFlagFromSortedFlags(form, agent, f);
  }

  /** A flag is in the query's flags word exactly when its condition holds. */
  lemma QueryFlagsExact(form: FormState, agent: Agent, f: QueryFlag)
    ensures f in QueryFlagsOf(form, agent) <==> Raised(f, form, agent)
  {
    if f in SortKeyBits || f == SortAsc {
      SortFlagExact(form, agent, f);
    } else if f in {PgSimsOnly, MatureSimsOnly} {
      LegacyFlagExact(form, agent, f);
    } else if f in {IncPg, IncMature, IncAdult, FilterGaming} {
      InclusionFlagExact(form, agent, f);
    }
  }

  /** The step-by-step encoder and the bit-by-bit conditions agree, whatever order
      the steps are taken in: ORing the contributions of any sequence holding the
      encoder's steps into the empty word gives exactly the query's flags word. */
  lemma StepsYieldQueryFlags(steps: seq<Step>, form: FormState, agent: Agent)
    requires forall s :: s in steps <==> s in SourceSteps
    ensures Accumulate({}, steps, form, agent) == QueryFlagsOf(form, agent)
  {
    forall f | true
      ensures f in Accumulate({}, steps, form, agent) <==> f in QueryFlagsOf(form, agent)
    {
      AccumulateMembership({}, steps, form, agent, f);
      QueryFlagsExact(form, agent, f);
      if f in Accumulate({}, steps, form, agent) {
        var s :| s in steps && f in Contribution(s, form, agent);
        ContributionSound(s, form, agent, f);
      }
      if Raised(f, form, agent) {
        var s := RaisingStep(f, form, agent);
        assert s in steps && f in Contribution(s, form, agent);
      }
    }
  }

  /** INC_PG follows the PG checkbox; INC_MATURE and INC_ADULT follow their checkbox
      only when the agent has that access, so a checkbox never sets its bit without it. */
  lemma InclusionBits(form: FormState, agent: Agent)
    ensures IncPg in QueryFlagsOf(form, agent) <==> form.incPg
    ensures IncMature in QueryFlagsOf(form, agent) <==> form.incMature && agent.canAccessMature
    ensures IncAdult in QueryFlagsOf(form, agent) <==> form.incAdult && agent.canAccessAdult
    ensures !agent.canAccessMature ==> IncMature !in QueryFlagsOf(form, agent)
    ensures !agent.canAccessAdult ==> IncAdult !in QueryFlagsOf(form, agent)
  {
    QueryFlagsExact(form, agent, IncPg);
    QueryFlagsExact(form, agent, IncMature);
    QueryFlagsExact(form, agent, IncAdult);
  }

  /** The legacy bits come from the raw checkbox values: MATURE_SIMS_ONLY for
      mature without PG, PG_SIMS_ONLY for PG without mature or a PG-only agent.
      Unless the agent wants PG only, the two legacy bits never appear together. */
  lemma LegacyBits(form: FormState, agent: Agent)
    ensures MatureSimsOnly in QueryFlagsOf(form, agent) <==> !form.incPg && form.incMature
    ensures PgSimsOnly in QueryFlagsOf(form, agent) <==> agent.wantsPgOnly || (form.incPg && !form.incMature)
    ensures !agent.wantsPgOnly ==>
              !(PgSimsOnly in QueryFlagsOf(form, agent) && MatureSimsOnly in QueryFlagsOf(form, agent))
  {
    QueryFlagsExact(form, agent, MatureSimsOnly);
    QueryFlagsExact(form, agent, PgSimsOnly);
  }

  /** The agent's mature and adult access change only the INC_MATURE and INC_ADULT
      bits: the legacy bits and every other bit are computed from the checkboxes alone. */
  lemma AccessAffectsOnlyGatedBits(form: FormState, a1: Agent, a2: Agent, f: QueryFlag)
    requires a1.wantsPgOnly == a2.wantsPgOnly
    requires f != IncMature && f != IncAdult
    ensures f in QueryFlagsOf(form, a1) <==> f in QueryFlagsOf(form, a2)
  {
    QueryFlagsExact(form, a1, f);
    QueryFlagsExact(form, a2, f);
  }

  /** The results-list column that sorts by sort key `k`. */
  function SortColumnName(k: QueryFlag): string
    requires k in SortKeyBits
  {
    match k
    case NameSort => "name"
    case PriceSort => "price"
    case PerMeterSort => "per_meter"
    case AreaSort => "area"
  }

  /** A sort-key bit is picked by an exact match of its column's name.  With
      SortBitsOf's own bound, a column with none of the four names picks no bit. */
  lemma SortBitsOfExact(column: string, k: QueryFlag)
    requires k in SortKeyBits
    ensures k in SortBitsOf(column) <==> column == SortColumnName(k)
  {
  }

  /** With a results list, a sort-key bit is set exactly when the list is sorted
      by that key's column; without one, no sort-key bit is set. */
  lemma SortKeyBit(form: FormState, agent: Agent, k: QueryFlag)
    requires k in SortKeyBits
    ensures k in QueryFlagsOf(form, agent) <==>
            form.results.Some? && form.results.value.column == SortColumnName(k)
  {
    SortFlagExact(form, agent, k);
    if form.results.Some? {
      SortBitsOfExact(form.results.value.column, k);
    }
  }

  /** SORT_ASC is set exactly when there is a results list sorted ascending. */
  lemma SortDirectionBit(form: FormState, agent: Agent)
    ensures SortAsc in QueryFlagsOf(form, agent) <==> form.results.Some? && form.results.value.ascending
  {
    SortFlagExact(form, agent, SortAsc);
  }

  /** A land query carries at most one sort-key bit. */
  lemma AtMostOneSortKey(form: FormState, agent: Agent, k1: QueryFlag, k2: QueryFlag)
    requires k1 in SortKeyBits && k2 in SortKeyBits
    requires k1 in QueryFlagsOf(form, agent) && k2 in QueryFlagsOf(form, agent)
    ensures k1 == k2
  {
    SortKeyBit(form, agent, k1);
    SortKeyBit(form, agent, k2);
  }

  /** A sort column with none of the four known names sets no sort-key bit, and
      the server's default order applies. */
  lemma UnknownSortColumnSetsNoKey(form: FormState, agent: Agent, k: QueryFlag)
    requires k in SortKeyBits
    requires form.results.Some? && form.results.value.column !in {"name", "price", "per_meter", "area"}
    ensures k !in QueryFlagsOf(form, agent)
  {
    SortKeyBit(form, agent, k);
  }

  /** LIMIT_BY_PRICE and LIMIT_BY_AREA follow their checkboxes, FILTER_GAMING the
      gaming checkbox (whether or not it is shown). */
  lemma LimitAndGamingBits(form: FormState, agent: Agent)
    ensures LimitByPrice in QueryFlagsOf(form, agent) <==> form.priceCheck
    ensures LimitByArea in QueryFlagsOf(form, agent) <==> form.areaCheck
    ensures FilterGaming in QueryFlagsOf(form, agent) <==> form.filterGaming
  {
    QueryFlagsExact(form, agent, LimitByPrice);
    QueryFlagsExact(form, agent, LimitByArea);
    QueryFlagsExact(form, agent, FilterGaming);
  }

  /** The limit checkboxes only switch their bit: the price and area values sent,
      and every other part of the message, stay the same whichever way they are set. */
  lemma LimitCheckboxesOnlySwitchTheirBits(form: FormState, agent: Agent, browser: BrowserState, priceCheck: bool, areaCheck: bool)
    requires form.incPg || form.incMature || form.incAdult
    ensures var r1 := EncodeQuery(form, agent, browser);
            var r2 := EncodeQuery(form.(priceCheck := priceCheck, areaCheck := areaCheck), agent, browser);
            r1.Send? && r2.Send? &&
            r2.query.price == r1.query.price && r2.query.area == r1.query.area &&
            r2.query == r1.query.(queryFlags := r2.query.queryFlags) &&
            r2.query.queryFlags - {LimitByPrice, LimitByArea} == r1.query.queryFlags - {LimitByPrice, LimitByArea}
  {
    var form2 := form.(priceCheck := priceCheck, areaCheck := areaCheck);
    forall f | true
      ensures f in QueryFlagsOf(form, agent) - {LimitByPrice, LimitByArea} <==>
              f in QueryFlagsOf(form2, agent) - {LimitByPrice, LimitByArea}
    {
      QueryFlagsExact(form, agent, f);
      QueryFlagsExact(form2, agent, f);
    }
  }

  /** A worked request: PG only, "Mainland Sales", price limit 500, sorted by area
      descending, for an agent without mature or adult access. */
  lemma MainlandSaleExample(agentId: Uuid, sessionId: Uuid, browser: BrowserState)
    ensures var form := FormState(true, false, false, FindMainlandSales, false,
                                  Some(SortState("area", false)), true, 500, false, 0);
            var agent := Agent(agentId, sessionId, false, false, false);
            EncodeQuery(form, agent, browser) ==
              Send(DirLandQuery(agentId, sessionId, browser.searchId,
                                {IncPg, PgSimsOnly, LimitByPrice, AreaSort}, Mainland,
                                500, 0, browser.searchStart))
  {
    var form := FormState(true, false, false, FindMainlandSales, false,
                          Some(SortState("area", false)), true, 500, false, 0);
    var agent := Agent(agentId, sessionId, false, false, false);
    forall f | true
      ensures f in QueryFlagsOf(form, agent) <==> f in {IncPg, PgSimsOnly, LimitByPrice, AreaSort}
    {
      QueryFlagsExact(form, agent, f);
    }
  }

  // ---------------------------------------------------------------------------
  // The panel
  // ---------------------------------------------------------------------------

  /** The panel's widgets: checkbox values, whether a widget is enabled or shown,
      the combo's typeLabel and the edit fields' integer values. */
  class DirLandPanel {
    var incPg: bool
    var incPgVisible: bool
    var incMature: bool
    var incMatureEnabled: bool
    var incAdult: bool
    var incAdultEnabled: bool
    var landType: string
    var filterGaming: bool
    var filterGamingVisible: bool
    var results: Option<SortState>
    var priceCheck: bool
    var priceEdit: int32
    var priceEditEnabled: bool
    var areaCheck: bool
    var areaEdit: int32
    var areaEditEnabled: bool

    /** The widget values a query reads. */
    function Snapshot(): FormState
      reads this
    {
      FormState(incPg, incMature, incAdult, landType, filterGaming, results,
                priceCheck, priceEdit, areaCheck, areaEdit)
    }

    /** The access gating done when the panel is built: the PG checkbox is shown,
        a maturity checkbox the agent may not use is cleared and disabled, and the
        gaming filter is shown only where the region asks for it. */
    method PostBuild(agent: Agent, region: Option<RegionGaming>)
      modifies this`incPgVisible, this`incMature, this`incMatureEnabled,
               this`incAdult, this`incAdultEnabled, this`filterGamingVisible
      ensures incPgVisible
      ensures if agent.canAccessMature
              then incMature == old(incMature) && incMatureEnabled == old(incMatureEnabled)
              else !incMature && !incMatureEnabled
      ensures if agent.canAccessAdult
              then incAdult == old(incAdult) && incAdultEnabled == old(incAdultEnabled)
              else !incAdult && !incAdultEnabled
      ensures filterGamingVisible <==> GamingFilterShown(region)
      ensures !agent.canAccessMature ==>
                IncMature !in QueryFlagsOf(Snapshot(), agent) && MatureSimsOnly !in QueryFlagsOf(Snapshot(), agent)
      ensures !agent.canAccessAdult ==> IncAdult !in QueryFlagsOf(Snapshot(), agent)
    {
      var adultEnabled := agent.canAccessAdult;
      var matureEnabled := agent.canAccessMature;
      incPgVisible := true;
      if !matureEnabled {
        incMature := false;
        incMatureEnabled := false;
      }
      if !adultEnabled {
        incAdult := false;
        incAdultEnabled := false;
      }
      filterGamingVisible := GamingFilterShown(region);
      InclusionBits(Snapshot(), agent);
      LegacyBits(Snapshot(), agent);
    }

    /** The price checkbox was committed: the price field is enabled iff it is on. */
    method OnCommitPrice(value: bool)
      modifies this`priceEditEnabled
      ensures priceEditEnabled == value
      ensures Snapshot() == old(Snapshot())
    {
      priceEditEnabled := value;
    }

    /** The area checkbox was committed: the area field is enabled iff it is on. */
    method OnCommitArea(value: bool)
      modifies this`areaEditEnabled
      ensures areaEditEnabled == value
      ensures Snapshot() == old(Snapshot())
    {
      areaEditEnabled := value;
    }

    /** The search type chosen by the land-type combo: the sale category whose
        label the combo shows, ST_ALL for anything else. */
    method ReadSearchType() returns (searchType: SearchType)
      ensures searchType == SearchTypeOf(landType)
    {
      searchType := AllTypes;
      var typeLabel := landType;
      if typeLabel != [] {
        if typeLabel == FindAuction { searchType := Auction; }
        else if typeLabel == FindMainlandSales { searchType := Mainland; }
        else if typeLabel == FindEstateSales { searchType := Estate; }
      }
    }

    /** The query-flags word built from the widgets, ORing in one condition's bit
        at a time in the encoder's order. */
    method ReadQueryFlags(agent: Agent) returns (flags: set<QueryFlag>)
      ensures flags == QueryFlagsOf(Snapshot(), agent)
    {
      ghost var form := Snapshot();
      var incPgValue, incMatureValue, incAdultValue := incPg, incMature, incAdult;
      flags := {};
      flags := flags + Bit(agent.wantsPgOnly, PgSimsOnly);
      var adultEnabled := agent.canAccessAdult;
      var matureEnabled := agent.canAccessMature;
      flags := flags + Bit(incPgValue, IncPg);
      flags := flags + Bit(incMatureValue && matureEnabled, IncMature);
      flags := flags + Bit(incAdultValue && adultEnabled, IncAdult);
      flags := flags + Bit(filterGaming, FilterGaming);
      // Old flags, for an old data server.
      flags := flags + Bit(incPgValue && !incMatureValue, PgSimsOnly);
      flags := flags + Bit(!incPgValue && incMatureValue, MatureSimsOnly);
      assert flags == MaturityFlags(form, agent);
      if results.Some? {
        var sortName := results.value.column;
        var sortAsc := results.value.ascending;
        flags := flags + SortBitsOf(sortName);
        flags := flags + Bit(sortAsc, SortAsc);
        assert flags == SortedFlags(MaturityFlags(form, agent), form.results);
      } else {
        assert flags == SortedFlags(MaturityFlags(form, agent), form.results);
      }
      flags := flags + Bit(priceCheck, LimitByPrice);
      flags := flags + Bit(areaCheck, LimitByArea);
    }

    /** Reads the widgets and builds the land query: nothing is sent unless some
        maturity tier is chosen; otherwise one DirLandQuery with the search type,
        the flags word and the raw price and area values. */
    method PerformQuery(agent: Agent, browser: BrowserState) returns (outcome: QueryOutcome)
      ensures outcome == EncodeQuery(Snapshot(), agent, browser)
    {
      if !(incPg || incMature || incAdult) {
        return NoContentToSearch;
      }
      var searchType := ReadSearchType();
      var flags := ReadQueryFlags(agent);
      outcome := Send(DirLandQuery(
        agent.id, agent.sessionId, browser.searchId, flags, searchType,
        priceEdit, areaEdit, browser.searchStart));
    }
  }
}
