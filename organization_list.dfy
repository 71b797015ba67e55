/** The organization directory (src/components/OrganizationList.tsx): the
    fetched organizations, the search box, and the grid, empty message,
    error banner or spinner it shows. */
module OrganizationList {
  import opened Wrappers
  import opened Text
  import opened Lists
  import opened Models

  const LoadError := "Failed to load organizations. Please try again later."

  /** The lowercased name or code contains the lowercased term. */
  predicate OrgMatches(org: Organization, searchTerm: string) {
    Includes(ToLower(org.name), ToLower(searchTerm)) || Includes(ToLower(org.code), ToLower(searchTerm))
  }

  /** `filteredOrganizations`: exactly the matching organizations, in their order. */
  function FilteredOrganizations(orgs: seq<Organization>, searchTerm: string): (r: seq<Organization>)
    ensures forall i :: 0 <= i < |r| ==> r[i] in orgs && OrgMatches(r[i], searchTerm)
    ensures forall i :: 0 <= i < |orgs| && OrgMatches(orgs[i], searchTerm) ==> orgs[i] in r
    ensures Subsequence(r, orgs)
    ensures forall org :: multiset(r)[org] == if OrgMatches(org, searchTerm) then multiset(orgs)[org] else 0
  {
    var keep := (org: Organization) => OrgMatches(org, searchTerm);
    FilterCounts(orgs, keep);
    Filter(orgs, keep)
  }

  /** An empty search box shows every organization. */
  lemma EmptyTermKeepsAll(orgs: seq<Organization>)
    ensures FilteredOrganizations(orgs, "") == orgs
  {
    forall i | 0 <= i < |orgs| ensures OrgMatches(orgs[i], "") {
      EmptyIncluded(ToLower(orgs[i].name));
    }
    FilterAll(orgs, (org: Organization) => OrgMatches(org, ""));
  }

  /** Searching the result again with the same term changes nothing. */
  lemma FilterIdempotent(orgs: seq<Organization>, searchTerm: string)
    ensures FilteredOrganizations(FilteredOrganizations(orgs, searchTerm), searchTerm) ==
            FilteredOrganizations(orgs, searchTerm)
  {
    FilterTwice(orgs, (org: Organization) => OrgMatches(org, searchTerm));
  }

  /** The search ignores the case of the term. */
  lemma SearchIgnoresCase(orgs: seq<Organization>, searchTerm: string)
    ensures FilteredOrganizations(orgs, ToLower(searchTerm)) == FilteredOrganizations(orgs, searchTerm)
  {
    ToLowerIdempotent(searchTerm);
    FilterSameAccepted(orgs, (org: Organization) => OrgMatches(org, ToLower(searchTerm)),
                       (org: Organization) => OrgMatches(org, searchTerm));
  }

  /** A term found in an organization's code finds that organization. */
  lemma CodeSearchFinds(orgs: seq<Organization>, i: nat)
    requires i < |orgs|
    ensures orgs[i] in FilteredOrganizations(orgs, orgs[i].code)
  {
    IncludesAt(ToLower(orgs[i].code), ToLower(orgs[i].code), 0);
  }

  datatype View = Spinner | ErrorBanner(message: string) | NoMatches | Cards(orgs: seq<Organization>)

  class OrganizationListView {
    var organizations: seq<Organization>
    var loading: bool
    var error: Option<string>
    var searchTerm: string

    /** What the view shows, in the order the page tests its state. */
    function View(): (v: View)
      reads this
      ensures loading ==> v == Spinner
      ensures !loading && error.Some? ==> v == ErrorBanner(error.value)
      ensures (!loading && error.None?) ==>
                (v == NoMatches <==> FilteredOrganizations(organizations, searchTerm) == [])
      ensures v.Cards? ==> v.orgs == FilteredOrganizations(organizations, searchTerm)
      ensures !loading && error.None? && FilteredOrganizations(organizations, searchTerm) != [] ==>
                v == Cards(FilteredOrganizations(organizations, searchTerm))
    {
      if loading then Spinner
      else if error.Some? then ErrorBanner(error.value)
      else
        var shown := FilteredOrganizations(organizations, searchTerm);
        if shown == [] then NoMatches else Cards(shown)
    }

    constructor ()
      ensures organizations == [] && loading && error.None? && searchTerm == ""
    {
      organizations := [];
      loading := true;
      error := None;
      searchTerm := "";
    }

    /** The end of the fetch effect: the organizations of the page that came
        back, or the error message when the request threw. */
    method Loaded(response: Result<Page<Organization>, string>)
      modifies this
      ensures !loading && searchTerm == old(searchTerm)
      ensures response.Ok? ==> organizations == response.value.data && error.None?
      ensures response.Err? ==> organizations == old(organizations) && error == Some(LoadError)
    {
      match response {
        case Ok(page) =>
          organizations := page.data;
          error := None;
        case Err(_) =>
          error := Some(LoadError);
      }
      loading := false;
    }

    method SearchChanged(value: string)
      modifies this
      ensures searchTerm == value
      ensures organizations == old(organizations) && loading == old(loading) && error == old(error)
    {
      searchTerm := value;
    }
  }
}
