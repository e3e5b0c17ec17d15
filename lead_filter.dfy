/** The dashboard's lead filter: a lead is shown when its name or company
    contains the search text, ignoring case, and its status is the chosen
    one, "All" meaning any status. */
module LeadFilter {
  import opened JsArray

  datatype Lead = Lead(id: int, name: string, company: string, email: string,
                       phone: string, status: string, assignedTo: string)

  /** The status-filter value that places no restriction. */
  const AnyStatus := "All"

  /** `toLowerCase` on one character, ASCII letters only. */
  function LowerChar(c: char): char
  {
    if 'A' <= c <= 'Z' then (c as int + ('a' as int - 'A' as int)) as char else c
  }

  /** `toLowerCase`, character by character. */
  function ToLower(s: string): (r: string)
    ensures |r| == |s|
    ensures forall i :: 0 <= i < |s| ==> r[i] == LowerChar(s[i])
  {
    seq(|s|, i requires 0 <= i < |s| => LowerChar(s[i]))
  }

  /** `hay.includes(needle)`: `needle` occurs somewhere in `hay`. */
  predicate Includes(hay: string, needle: string)
    ensures needle == [] ==> Includes(hay, needle)
    ensures Includes(hay, needle) ==> |needle| <= |hay|
    decreases |hay|
  {
    needle <= hay || (hay != [] && Includes(hay[1..], needle))
  }

  /** `needle` sits in `hay` at offset `k`. */
  predicate OccursAt(hay: string, needle: string, k: int)
  {
    0 <= k && k + |needle| <= |hay| && hay[k..k + |needle|] == needle
  }

  /** An occurrence at offset `k` makes `Includes` hold. */
  lemma {:induction false} OccursAtIncludes(hay: string, needle: string, k: int)
    requires OccursAt(hay, needle, k)
    ensures Includes(hay, needle)
    decreases k
  {
    if k == 0 {
      assert needle <= hay;
    } else {
      assert hay[1..][k - 1..k - 1 + |needle|] == hay[k..k + |needle|];
      OccursAtIncludes(hay[1..], needle, k - 1);
    }
  }

  /** When `Includes` holds, it names an offset where `needle` sits. */
  lemma {:induction false} IncludesOffset(hay: string, needle: string) returns (k: int)
    requires Includes(hay, needle)
    ensures OccursAt(hay, needle, k)
    decreases |hay|
  {
    if needle <= hay {
      k := 0;
    } else {
      var j := IncludesOffset(hay[1..], needle);
      assert hay[j + 1..j + 1 + |needle|] == hay[1..][j..j + |needle|];
      k := j + 1;
    }
  }

  /** `Includes` holds exactly when `needle` sits at some offset of `hay`. */
  lemma IncludesAtOffset(hay: string, needle: string)
    ensures Includes(hay, needle) <==> exists k :: OccursAt(hay, needle, k)
  {
    if Includes(hay, needle) {
      var k := IncludesOffset(hay, needle);
    }
    if exists k :: OccursAt(hay, needle, k) {
      var k :| OccursAt(hay, needle, k);
      OccursAtIncludes(hay, needle, k);
    }
  }

  /** The search part: the lower-cased search text sits somewhere in the
      lower-cased name or company. The empty search matches every lead. */
  predicate MatchesSearch(lead: Lead, search: string)
    ensures MatchesSearch(lead, search) <==>
      (exists k :: OccursAt(ToLower(lead.name), ToLower(search), k)) ||
      (exists k :: OccursAt(ToLower(lead.company), ToLower(search), k))
    ensures search == "" ==> MatchesSearch(lead, search)
  {
    IncludesAtOffset(ToLower(lead.name), ToLower(search));
    IncludesAtOffset(ToLower(lead.company), ToLower(search));
    Includes(ToLower(lead.name), ToLower(search)) || Includes(ToLower(lead.company), ToLower(search))
  }

  /** The status part: "All" admits every lead, any other value only the
      leads with exactly that status. */
  predicate MatchesStatus(lead: Lead, filterStatus: string)
    ensures filterStatus == AnyStatus ==> MatchesStatus(lead, filterStatus)
    ensures filterStatus != AnyStatus ==> (MatchesStatus(lead, filterStatus) <==> lead.status == filterStatus)
  {
    filterStatus == AnyStatus || lead.status == filterStatus
  }

  /** The filter callback: `matchesSearch && matchesStatus`. */
  function Shown(search: string, filterStatus: string): Lead -> bool
  {
    (lead: Lead) => MatchesSearch(lead, search) && MatchesStatus(lead, filterStatus)
  }

  /** `filteredLeads`: never longer than the list, and every lead in it
      matches both the search and the status filter. */
  function FilteredLeads(leads: seq<Lead>, search: string, filterStatus: string): (r: seq<Lead>)
    ensures |r| <= |leads|
    ensures forall i :: 0 <= i < |r| ==> MatchesSearch(r[i], search) && MatchesStatus(r[i], filterStatus)
  {
    Filter(leads, Shown(search, filterStatus))
  }

  /** The shown leads come from `leads` in their original order; every one
      of them matches both the search and the status filter; every lead that
      matches both is shown, as often as it occurs; and filtering the shown
      list again yields the same list. */
  lemma FilteredLeadsSoundAndComplete(leads: seq<Lead>, search: string, filterStatus: string)
    ensures var r := FilteredLeads(leads, search, filterStatus);
      && IsSubsequence(r, leads)
      && (forall i :: 0 <= i < |r| ==> MatchesSearch(r[i], search) && MatchesStatus(r[i], filterStatus))
      && (forall lead: Lead :: MatchesSearch(lead, search) && MatchesStatus(lead, filterStatus) ==>
            multiset(r)[lead] == multiset(leads)[lead])
      && (forall lead: Lead :: !(MatchesSearch(lead, search) && MatchesStatus(lead, filterStatus)) ==>
            lead !in r)
      && FilteredLeads(r, search, filterStatus) == r
  {
    var p := Shown(search, filterStatus);
    var r := FilteredLeads(leads, search, filterStatus);
    FilterIsSubsequence(leads, p);
    FilterIdempotent(leads, p);
    forall lead: Lead
      ensures multiset(r)[lead] == if p(lead) then multiset(leads)[lead] else 0
    {
      FilterCounts(leads, p, lead);
    }
  }

  /** With the empty search only the status filter applies. */
  lemma EmptySearchFiltersByStatusOnly(leads: seq<Lead>, filterStatus: string)
    ensures FilteredLeads(leads, "", filterStatus) == Filter(leads, (lead: Lead) => MatchesStatus(lead, filterStatus))
  {
    forall i | 0 <= i < |leads|
      ensures Shown("", filterStatus)(leads[i]) == MatchesStatus(leads[i], filterStatus)
    {
    }
    FilterExtensional(leads, Shown("", filterStatus), (lead: Lead) => MatchesStatus(lead, filterStatus));
  }

  /** With the status filter "All" only the search applies. */
  lemma AllStatusesFiltersBySearchOnly(leads: seq<Lead>, search: string)
    ensures FilteredLeads(leads, search, AnyStatus) == Filter(leads, (lead: Lead) => MatchesSearch(lead, search))
  {
    FilterExtensional(leads, Shown(search, AnyStatus), (lead: Lead) => MatchesSearch(lead, search));
  }

  /** With the empty search and "All", every lead is shown. */
  lemma NoFilterShowsEverything(leads: seq<Lead>)
    ensures FilteredLeads(leads, "", AnyStatus) == leads
  {
    forall i | 0 <= i < |leads|
      ensures Shown("", AnyStatus)(leads[i])
    {
    }
    FilterKeepsAll(leads, Shown("", AnyStatus));
  }
}
