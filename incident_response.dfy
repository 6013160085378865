/** Incident tracking (src/pages/IncidentResponse.tsx): a searchable,
    status-filtered incident list, a details panel for one selected incident,
    status changes by incident id, and the MITRE ATT&CK tactics shown for the
    selected incident. */
module IncidentResponse {
  import opened Types
  import opened Text
  import opened Seqs

  /** The search term occurs, ignoring ASCII case, in the title or the id. */
  predicate MatchesSearch(inc: Incident, term: string)
  {
    Contains(ToLower(inc.title), ToLower(term)) || Contains(ToLower(inc.id), ToLower(term))
  }

  predicate MatchesStatus(inc: Incident, statusFilter: Selection<IncidentStatus>)
  {
    statusFilter.All? || inc.status == statusFilter.value
  }

  /** `filteredIncidents`: the incidents that match the search and the status
      filter, in list order. */
  function FilteredIncidents(incidents: seq<Incident>, term: string,
                             statusFilter: Selection<IncidentStatus>): seq<Incident>
  {
    Filter(incidents, inc => MatchesSearch(inc, term) && MatchesStatus(inc, statusFilter))
  }

  /** The filtered list is an order-preserving subsequence of the incidents;
      it holds exactly the incidents whose lower-cased title or id contains
      the lower-cased term and whose status is the selected one (any status
      under 'all'), each as often as it occurs in the full list. */
  lemma FilteredIncidentsExactly(incidents: seq<Incident>, term: string,
                                 statusFilter: Selection<IncidentStatus>)
    ensures IsSubsequence(FilteredIncidents(incidents, term, statusFilter), incidents)
    ensures forall inc :: inc in FilteredIncidents(incidents, term, statusFilter) <==>
      && inc in incidents
      && ((exists i :: OccursAt(ToLower(inc.title), ToLower(term), i)) ||
          (exists i :: OccursAt(ToLower(inc.id), ToLower(term), i)))
      && (statusFilter.Only? ==> inc.status == statusFilter.value)
    ensures forall inc :: multiset(FilteredIncidents(incidents, term, statusFilter))[inc] ==
                          if MatchesSearch(inc, term) && MatchesStatus(inc, statusFilter)
                          then multiset(incidents)[inc] else 0
  {
    FilterIsSubsequence(incidents, inc => MatchesSearch(inc, term) && MatchesStatus(inc, statusFilter));
    FilterMultiset(incidents, inc => MatchesSearch(inc, term) && MatchesStatus(inc, statusFilter));
    forall inc: Incident
      ensures MatchesSearch(inc, term) <==>
        (exists i :: OccursAt(ToLower(inc.title), ToLower(term), i)) ||
        (exists i :: OccursAt(ToLower(inc.id), ToLower(term), i))
    {
      ContainsIff(ToLower(inc.title), ToLower(term));
      ContainsIff(ToLower(inc.id), ToLower(term));
    }
  }

  /** An empty search with status 'all' lists every incident. */
  lemma EmptySearchListsAll(incidents: seq<Incident>)
    ensures FilteredIncidents(incidents, "", All) == incidents
  {
    assert ToLower("") == "";
    forall inc: Incident ensures MatchesSearch(inc, "") {
      ContainsEmpty(ToLower(inc.title));
    }
    FilterAllKept(incidents, inc => MatchesSearch(inc, "") && MatchesStatus(inc, All));
  }

  /** The list after `updateIncidentStatus(id, status)` at instant `now`:
      every incident with that id gets the new status and update time. */
  function UpdateStatus(incidents: seq<Incident>, id: string, status: IncidentStatus, now: int): (r: seq<Incident>)
    ensures |r| == |incidents|
    ensures forall i :: 0 <= i < |r| ==>
      r[i].(status := incidents[i].status, updatedAt := incidents[i].updatedAt) == incidents[i]
    ensures forall i :: 0 <= i < |r| && incidents[i].id == id ==> r[i].status == status && r[i].updatedAt == now
    ensures forall i :: 0 <= i < |r| && incidents[i].id != id ==> r[i] == incidents[i]
  {
    seq(|incidents|, i requires 0 <= i < |incidents| =>
      if incidents[i].id == id then incidents[i].(status := status, updatedAt := now) else incidents[i])
  }

  /** Setting the same status twice is the same as setting it once, at the
      later instant. */
  lemma {:induction false} UpdateStatusTwice(incidents: seq<Incident>, id: string, status: IncidentStatus,
                                             first: int, second: int)
    ensures UpdateStatus(UpdateStatus(incidents, id, status, first), id, status, second) ==
            UpdateStatus(incidents, id, status, second)
  {
    var once := UpdateStatus(incidents, id, status, first);
    var twice := UpdateStatus(once, id, status, second);
    var direct := UpdateStatus(incidents, id, status, second);
    forall i | 0 <= i < |incidents| ensures twice[i] == direct[i] {
      assert once[i].id == incidents[i].id;
    }
  }

  /** `mitreTactics.find(t => t.id === id)`: the first table entry with that id. */
  function FindTactic(table: seq<MitreTactic>, id: string): (r: Option<MitreTactic>)
    ensures r.None? <==> forall k :: 0 <= k < |table| ==> table[k].id != id
    ensures r.Some? ==> exists k :: 0 <= k < |table| && table[k] == r.value && r.value.id == id &&
                                    forall j :: 0 <= j < k ==> table[j].id != id
    decreases |table|
  {
    if table == [] then None
    else if table[0].id == id then Some(table[0])
    else
      var r := FindTactic(table[1..], id);
      assert r.Some? ==> exists k :: 0 < k < |table| && table[k] == r.value && r.value.id == id &&
                                      forall j :: 0 <= j < k ==> table[j].id != id by {
        if r.Some? {
          var k :| 0 <= k < |table| - 1 && table[1..][k] == r.value && r.value.id == id &&
                   forall j :: 0 <= j < k ==> table[1..][j].id != id;
          assert forall j :: 1 <= j < k + 1 ==> table[j].id != id by {
            forall j | 1 <= j < k + 1 ensures table[j].id != id {
              assert table[j] == table[1..][j - 1];
            }
          }
        }
      }
      r
  }

  /** The tactic cards of the details panel: one per listed tactic id found in
      the reference table, in the incident's order; unknown ids show nothing. */
  function ShownTactics(ids: seq<string>, table: seq<MitreTactic>): (r: seq<MitreTactic>)
    ensures forall t :: t in r ==> t in table
    decreases |ids|
  {
    if ids == [] then []
    else
      match FindTactic(table, ids[0])
      case Some(t) => [t] + ShownTactics(ids[1..], table)
      case None => ShownTactics(ids[1..], table)
  }

  function TacticIds(tactics: seq<MitreTactic>): (r: seq<string>)
  {
    seq(|tactics|, i requires 0 <= i < |tactics| => tactics[i].id)
  }

  /** The cards shown carry exactly the incident's tactic ids that the table
      knows, in order: unknown ids are skipped. */
  lemma {:induction false} ShownTacticsSkipUnknown(ids: seq<string>, table: seq<MitreTactic>)
    ensures TacticIds(ShownTactics(ids, table)) == Filter(ids, id => FindTactic(table, id).Some?)
    decreases |ids|
  {
    if ids != [] {
      ShownTacticsSkipUnknown(ids[1..], table);
      var rest := ShownTactics(ids[1..], table);
      match FindTactic(table, ids[0])
      case Some(t) =>
        assert TacticIds([t] + rest) == [t.id] + TacticIds(rest);
      case None =>
    }
  }

  /** The reference table of ATT&CK tactics the panel looks ids up in. */
  const MitreTable: seq<MitreTactic> := [
    MitreTactic("TA0001", "Initial Access", "The adversary is trying to get into your network."),
    MitreTactic("TA0002", "Execution", "The adversary is trying to run malicious code."),
    MitreTactic("TA0003", "Persistence", "The adversary is trying to maintain their foothold."),
    MitreTactic("TA0004", "Privilege Escalation", "The adversary is trying to gain higher-level permissions."),
    MitreTactic("TA0005", "Defense Evasion", "The adversary is trying to avoid being detected."),
    MitreTactic("TA0006", "Credential Access", "The adversary is trying to steal account names and passwords."),
    MitreTactic("TA0007", "Discovery", "The adversary is trying to figure out your environment."),
    MitreTactic("TA0008", "Lateral Movement", "The adversary is trying to move through your environment."),
    MitreTactic("TA0009", "Collection", "The adversary is trying to gather data of interest."),
    MitreTactic("TA0010", "Command and Control", "The adversary is trying to communicate with compromised systems."),
    MitreTactic("TA0011", "Exfiltration", "The adversary is trying to steal data."),
    MitreTactic("TA0040", "Impact", "The adversary is trying to manipulate, interrupt, or destroy systems and data.")
  ]

  /** An incident listing a tactic the table lacks shows only the known ones. */
  lemma UnknownTacticSkipped()
    ensures ShownTactics(["TA9999", "TA0001"], MitreTable) == [MitreTable[0]]
  {
    var rest := ShownTactics(["TA0001"], MitreTable);
    assert FindTactic(MitreTable, "TA0001") == Some(MitreTable[0]);
    assert rest == [MitreTable[0]] by {
      assert ["TA0001"][1..] == [];
    }
    assert forall k :: 0 <= k < |MitreTable| ==> MitreTable[k].id[5] != '9' || MitreTable[k].id[4] != '9';
    assert ["TA9999", "TA0001"][1..] == ["TA0001"];
  }

  /** The incident page's component state. */
  class IncidentPage {
    var incidents: seq<Incident>
    var selected: Option<Incident>
    var searchTerm: string
    var statusFilter: Selection<IncidentStatus>

    /** The details panel shows an incident of the list. */
    ghost predicate Valid()
      reads this
    {
      selected.Some? ==> selected.value in incidents
    }

    constructor (incidents: seq<Incident>)
      ensures Valid()
      ensures this.incidents == incidents && selected == None && searchTerm == "" && statusFilter == All
    {
      this.incidents := incidents;
      selected := None;
      searchTerm := "";
      statusFilter := All;
    }

    function Filtered(): seq<Incident>
      reads this
    {
      FilteredIncidents(incidents, searchTerm, statusFilter)
    }

    /** A click on the `index`-th row of the displayed list. */
    method Select(index: nat)
      requires Valid() && index < |Filtered()|
      modifies this`selected
      ensures Valid() && selected == Some(old(Filtered())[index])
    {
      selected := Some(Filtered()[index]);
    }

    /** The close button of the details panel. */
    method CloseDetails()
      modifies this`selected
      ensures Valid() && selected == None
    {
      selected := None;
    }

    method SetSearchTerm(term: string)
      modifies this`searchTerm
      ensures searchTerm == term
    {
      searchTerm := term;
    }

    method SetStatusFilter(statusSel: Selection<IncidentStatus>)
      modifies this`statusFilter
      ensures statusFilter == statusSel
    {
      statusFilter := statusSel;
    }

    /** `updateIncidentStatus(id, status)`: any status may follow any other.
        The selected incident follows the change when it has that id and is
        left alone otherwise. */
    method UpdateIncidentStatus(id: string, status: IncidentStatus, now: int)
      requires Valid()
      modifies this`incidents, this`selected
      ensures Valid()
      ensures incidents == UpdateStatus(old(incidents), id, status, now)
      ensures selected == if old(selected).Some? && old(selected).value.id == id
                          then Some(old(selected).value.(status := status, updatedAt := now))
                          else old(selected)
    {
      ghost var before := incidents;
      incidents := UpdateStatus(incidents, id, status, now);
      if selected.Some? && selected.value.id == id {
        ghost var k :| 0 <= k < |before| && before[k] == selected.value;
        selected := Some(selected.value.(status := status, updatedAt := now));
        assert incidents[k] == selected.value;
      } else if selected.Some? {
        ghost var k :| 0 <= k < |before| && before[k] == selected.value;
        assert incidents[k] == selected.value;
      }
    }
  }
}
