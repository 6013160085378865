/** The live threat feed (src/pages/ThreatFeed.tsx): a list of threats that
    grows on a timer, narrowed by a case-insensitive search and by type and
    severity filters, and the colour band of each threat's AI score. */
module ThreatFeed {
  import opened Types
  import opened Text
  import opened Seqs

  /** The search term occurs, ignoring ASCII case, in the threat's title,
      description or source. */
  predicate MatchesSearch(t: Threat, term: string)
  {
    var needle := ToLower(term);
    || Contains(ToLower(t.title), needle)
    || Contains(ToLower(t.description), needle)
    || Contains(ToLower(t.source), needle)
  }

  predicate MatchesType(t: Threat, typeFilter: Selection<ThreatType>)
  {
    typeFilter.All? || t.kind == typeFilter.value
  }

  predicate MatchesSeverity(t: Threat, severityFilter: Selection<Severity>)
  {
    severityFilter.All? || t.severity == severityFilter.value
  }

  /** A threat is listed when it passes the search and both filters. */
  predicate Shown(t: Threat, term: string, typeFilter: Selection<ThreatType>, severityFilter: Selection<Severity>)
  {
    MatchesSearch(t, term) && MatchesType(t, typeFilter) && MatchesSeverity(t, severityFilter)
  }

  /** The list the feed displays: the listed threats, in feed order. */
  function Visible(threats: seq<Threat>, term: string, typeFilter: Selection<ThreatType>,
                   severityFilter: Selection<Severity>): seq<Threat>
  {
    Filter(threats, t => Shown(t, term, typeFilter, severityFilter))
  }

  /** An empty search term matches every threat. */
  lemma EmptyTermMatchesAll(t: Threat)
    ensures MatchesSearch(t, "")
  {
    assert ToLower("") == "";
    ContainsEmpty(ToLower(t.title));
  }

  /** The displayed list keeps exactly the threats that pass all three tests,
      every copy of each, in their original relative order, so "Showing n of
      m" has n <= m. */
  lemma VisibleExactly(threats: seq<Threat>, term: string, typeFilter: Selection<ThreatType>,
                       severityFilter: Selection<Severity>)
    ensures IsSubsequence(Visible(threats, term, typeFilter, severityFilter), threats)
    ensures |Visible(threats, term, typeFilter, severityFilter)| <= |threats|
    ensures forall t :: t in Visible(threats, term, typeFilter, severityFilter) <==>
                          t in threats && Shown(t, term, typeFilter, severityFilter)
    ensures forall t :: multiset(Visible(threats, term, typeFilter, severityFilter))[t] ==
                          if Shown(t, term, typeFilter, severityFilter) then multiset(threats)[t] else 0
  {
    FilterIsSubsequence(threats, t => Shown(t, term, typeFilter, severityFilter));
    FilterMultiset(threats, t => Shown(t, term, typeFilter, severityFilter));
  }

  /** With a type selected, every displayed threat has that type; with a
      severity selected, that severity; with a non-empty term, the term occurs
      in its lower-cased title, description or source. */
  lemma VisibleMatchesFilters(threats: seq<Threat>, term: string, typeFilter: Selection<ThreatType>,
                              severityFilter: Selection<Severity>)
    ensures typeFilter.Only? ==>
      forall t :: t in Visible(threats, term, typeFilter, severityFilter) ==> t.kind == typeFilter.value
    ensures severityFilter.Only? ==>
      forall t :: t in Visible(threats, term, typeFilter, severityFilter) ==> t.severity == severityFilter.value
    ensures forall t :: t in Visible(threats, term, typeFilter, severityFilter) ==>
      || (exists i :: OccursAt(ToLower(t.title), ToLower(term), i))
      || (exists i :: OccursAt(ToLower(t.description), ToLower(term), i))
      || (exists i :: OccursAt(ToLower(t.source), ToLower(term), i))
  {
    forall t | t in Visible(threats, term, typeFilter, severityFilter)
      ensures || (exists i :: OccursAt(ToLower(t.title), ToLower(term), i))
              || (exists i :: OccursAt(ToLower(t.description), ToLower(term), i))
              || (exists i :: OccursAt(ToLower(t.source), ToLower(term), i))
    {
      ContainsIff(ToLower(t.title), ToLower(term));
      ContainsIff(ToLower(t.description), ToLower(term));
      ContainsIff(ToLower(t.source), ToLower(term));
    }
  }

  /** With no search term and both filters on 'all', the whole feed shows. */
  lemma NoFiltersShowAll(threats: seq<Threat>)
    ensures Visible(threats, "", All, All) == threats
  {
    forall t: Threat ensures MatchesSearch(t, "") {
      EmptyTermMatchesAll(t);
    }
    FilterAllKept(threats, t => Shown(t, "", All, All));
  }

  /** Threats appended to the feed show up at the end of the displayed list
      when they pass the filters; the entries shown before stay as they were. */
  lemma VisibleAppend(threats: seq<Threat>, extra: seq<Threat>, term: string,
                      typeFilter: Selection<ThreatType>, severityFilter: Selection<Severity>)
    ensures Visible(threats + extra, term, typeFilter, severityFilter) ==
            Visible(threats, term, typeFilter, severityFilter) + Visible(extra, term, typeFilter, severityFilter)
  {
    FilterAppend(threats, extra, t => Shown(t, term, typeFilter, severityFilter));
  }

  /** `getAIScoreColor`: the text colour for an AI score. */
  function AIScoreColor(score: int): (r: string)
    ensures r == "text-cyber-red" <==> score >= 90
    ensures r == "text-orange-500" <==> 70 <= score < 90
    ensures r == "text-yellow-500" <==> 50 <= score < 70
    ensures r == "text-cyber-blue" <==> score < 50
  {
    if score >= 90 then "text-cyber-red"
    else if score >= 70 then "text-orange-500"
    else if score >= 50 then "text-yellow-500"
    else "text-cyber-blue"
  }

  /** The feed page's component state. */
  class FeedPage {
    /** The fixture threats the page starts from and draws new ones from. */
    const fixtures: seq<Threat>
    var threats: seq<Threat>
    var filteredThreats: seq<Threat>
    var searchTerm: string
    var typeFilter: Selection<ThreatType>
    var severityFilter: Selection<Severity>
    var isLive: bool

    /** The filter effect has run since the last change of its inputs. */
    ghost predicate Valid()
      reads this
    {
      filteredThreats == Visible(threats, searchTerm, typeFilter, severityFilter)
    }

    constructor (fixtures: seq<Threat>)
      ensures Valid()
      ensures this.fixtures == fixtures && threats == fixtures && filteredThreats == fixtures
      ensures searchTerm == "" && typeFilter == All && severityFilter == All && isLive
    {
      this.fixtures := fixtures;
      threats := fixtures;
      filteredThreats := fixtures;
      searchTerm := "";
      typeFilter := All;
      severityFilter := All;
      isLive := true;
      NoFiltersShowAll(fixtures);
    }

    /** The filter effect: narrows the feed by search term, then by type, then
        by severity, and stores the result. */
    method ApplyFilters()
      modifies this`filteredThreats
      ensures Valid()
    {
      var term, typeSel, severitySel := searchTerm, typeFilter, severityFilter;
      ghost var bySearch := (t: Threat) => MatchesSearch(t, term);
      ghost var byBoth := (t: Threat) => MatchesSearch(t, term) && MatchesType(t, typeSel);
      ghost var byAll := (t: Threat) => Shown(t, term, typeSel, severitySel);

      var filtered := threats;
      if term != "" {
        filtered := Filter(filtered, t => MatchesSearch(t, term));
        FilterExtensional(threats, t => MatchesSearch(t, term), bySearch);
      } else {
        forall t: Threat ensures bySearch(t) {
          EmptyTermMatchesAll(t);
        }
        FilterAllKept(threats, bySearch);
      }
      assert filtered == Filter(threats, bySearch);

      if typeSel.Only? {
        var kind := typeSel.value;
        filtered := Filter(filtered, (t: Threat) => t.kind == kind);
        FilterFilter(threats, bySearch, (t: Threat) => t.kind == kind, byBoth);
      } else {
        FilterExtensional(threats, bySearch, byBoth);
      }
      assert filtered == Filter(threats, byBoth);

      if severitySel.Only? {
        var severity := severitySel.value;
        filtered := Filter(filtered, (t: Threat) => t.severity == severity);
        FilterFilter(threats, byBoth, (t: Threat) => t.severity == severity, byAll);
      } else {
        FilterExtensional(threats, byBoth, byAll);
      }
      FilterExtensional(threats, byAll, t => Shown(t, term, typeSel, severitySel));
      filteredThreats := filtered;
    }

    method SetSearchTerm(term: string)
      modifies this
      ensures Valid() && searchTerm == term
      ensures threats == old(threats) && typeFilter == old(typeFilter)
      ensures severityFilter == old(severityFilter) && isLive == old(isLive)
    {
      searchTerm := term;
      ApplyFilters();
    }

    method SetTypeFilter(typeSel: Selection<ThreatType>)
      modifies this
      ensures Valid() && typeFilter == typeSel
      ensures threats == old(threats) && searchTerm == old(searchTerm)
      ensures severityFilter == old(severityFilter) && isLive == old(isLive)
    {
      typeFilter := typeSel;
      ApplyFilters();
    }

    method SetSeverityFilter(severitySel: Selection<Severity>)
      modifies this
      ensures Valid() && severityFilter == severitySel
      ensures threats == old(threats) && searchTerm == old(searchTerm)
      ensures typeFilter == old(typeFilter) && isLive == old(isLive)
    {
      severityFilter := severitySel;
      ApplyFilters();
    }

    /** The Pause / Resume button. */
    method ToggleLive()
      modifies this`isLive
      ensures isLive == !old(isLive)
    {
      isLive := !isLive;
    }

    /** One firing of the live interval: the first fixture threat is appended
        to the feed and the filter effect re-runs. The interval is registered
        only while the feed is live, so a paused feed does not change. */
    method Tick()
      requires Valid()
      modifies this`threats, this`filteredThreats
      ensures Valid()
      ensures threats == if old(isLive) then old(threats) + Take(fixtures, 1) else old(threats)
      ensures filteredThreats == if old(isLive)
                                 then old(filteredThreats) + Visible(Take(fixtures, 1), searchTerm, typeFilter, severityFilter)
                                 else old(filteredThreats)
    {
      if isLive {
        var arrivals := Take(fixtures, 1);
        VisibleAppend(threats, arrivals, searchTerm, typeFilter, severityFilter);
        threats := threats + arrivals;
        ApplyFilters();
      }
    }
  }

  /** The page as a client sees it: after a live tick the feed has one more
      entry, a second copy of the first fixture, so two listed threats share
      its id and, with no filter set, both are shown. */
  method TickAppendsFirstFixture(first: Threat, others: seq<Threat>) returns (page: FeedPage)
    ensures page.threats == [first] + others + [first]
    ensures page.threats[0].id == page.threats[|page.threats| - 1].id
    ensures multiset(page.threats)[first] == multiset(others)[first] + 2
    ensures page.filteredThreats == page.threats
  {
    page := new FeedPage([first] + others);
    page.Tick();
    assert page.threats == [first] + others + [first];
    NoFiltersShowAll(page.threats);
  }
}
