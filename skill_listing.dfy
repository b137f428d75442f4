/** The skill browser of the SkillSwap client
    (project/src/components/pages/SkillListing.js): the fetch URL chosen by
    the category filter and the client-side experience and search filters
    applied to what the server returns. */
module SkillListing {
  import opened Wrappers
  import opened Domain
  import opened Seqs
  import opened Strings

  const SkillsEndpoint: string := "http://localhost:5000/api/skills"

  /** The three filter inputs; the empty string means "not set". */
  datatype Filters = Filters(category: string, experienceLevel: string, searchTerm: string)

  datatype FilterField = CategoryField | ExperienceField | SearchField

  /** The URL `fetchSkills` requests: the endpoint, followed by
      `/category/<c>` exactly when a category is set. */
  method SkillsUrl(category: string) returns (url: string)
    ensures |url| >= |SkillsEndpoint| && url[..|SkillsEndpoint|] == SkillsEndpoint
    ensures category == "" <==> url == SkillsEndpoint
    ensures category != "" ==> url[|SkillsEndpoint|..] == "/category/" + category
  {
    url := SkillsEndpoint;
    if category != "" {
      url := url + "/category/" + category;
    }
  }

  /** The search test for the already lower-cased term `searchLower`. */
  predicate MatchesSearch(searchLower: string, s: Skill)
  {
    || Includes(Lower(s.title), searchLower)
    || Includes(Lower(s.description), searchLower)
    || Includes(Lower(s.category), searchLower)
  }

  /** The reference definition of the filter chain: a skill is shown when it
      passes every filter that is set. */
  predicate Keeps(f: Filters, s: Skill)
  {
    && (f.experienceLevel == "" || s.experienceLevel == f.experienceLevel)
    && (f.searchTerm == "" || MatchesSearch(Lower(f.searchTerm), s))
  }

  /** The skills the page shows for a fetched list. */
  function Shown(fetched: seq<Skill>, f: Filters): seq<Skill>
  {
    Filter(fetched, s => Keeps(f, s))
  }

  /** Lower-casing preserves an occurrence. */
  lemma IncludesLower(s: string, t: string)
    requires Includes(s, t)
    ensures Includes(Lower(s), Lower(t))
  {
    IncludesIff(s, t);
    var i :| OccursAt(s, t, i);
    assert Lower(s)[i..i + |t|] == Lower(t);
    assert OccursAt(Lower(s), Lower(t), i);
    IncludesIff(Lower(s), Lower(t));
  }

  /** The search ignores case: a term found verbatim in the title, the
      description or the category keeps the skill, whatever the case of
      either side, and so does the same term written in other case. */
  lemma SearchIgnoresCase(term: string, other: string, s: Skill)
    requires Lower(other) == Lower(term)
    requires Includes(s.title, term) || Includes(s.description, term) || Includes(s.category, term)
    ensures MatchesSearch(Lower(term), s) && MatchesSearch(Lower(other), s)
  {
    if Includes(s.title, term) {
      IncludesLower(s.title, term);
    } else if Includes(s.description, term) {
      IncludesLower(s.description, term);
    } else {
      IncludesLower(s.category, term);
    }
  }

  /** The filter chain as `fetchSkills` runs it: the experience filter when
      a level is set, then the search filter when a term is set. The result
      is exactly the fetched skills that pass every set filter, in their
      fetched order. */
  method ApplyFilters(fetched: seq<Skill>, f: Filters) returns (result: seq<Skill>)
    ensures result == Shown(fetched, f)
    ensures IsSubsequence(result, fetched)
    ensures forall s :: s in result ==> s in fetched && Keeps(f, s)
    ensures forall s :: s in fetched && Keeps(f, s) ==> s in result
    ensures f.experienceLevel == "" && f.searchTerm == "" ==> result == fetched
  {
    var level := f.experienceLevel;
    var term := f.searchTerm;
    var byLevel: Skill -> bool := (s: Skill) => s.experienceLevel == level;
    result := fetched;
    if level != "" {
      result := Filter(result, byLevel);
    }
    if term != "" {
      var searchLower := Lower(term);
      var bySearch: Skill -> bool := (s: Skill) => MatchesSearch(searchLower, s);
      if level != "" {
        FilterFuse(fetched, byLevel, bySearch, s => Keeps(f, s));
      } else {
        FilterCongruent(fetched, bySearch, s => Keeps(f, s));
      }
      result := Filter(result, bySearch);
    } else if level != "" {
      FilterCongruent(fetched, byLevel, s => Keeps(f, s));
    } else {
      FilterKeepsAll(fetched, s => Keeps(f, s));
    }
    FilterIsSubsequence(fetched, s => Keeps(f, s));
  }

  /** The page's state. Each run of the effect issues a request; request
      `i` was issued under the filters `issued[i]`, which its `fetchSkills`
      closure captured, and `settled` holds the requests that have
      answered. */
  class SkillBrowser {
    var skills: seq<Skill>
    var filters: Filters
    var issued: seq<Filters>
    var settled: set<nat>

    constructor ()
      ensures skills == [] && filters == Filters("", "", "") && issued == [] && settled == {}
    {
      skills := [];
      filters := Filters("", "", "");
      issued := [];
      settled := {};
    }

    /** One of the three inputs changes; the others are kept. */
    method ChangeFilter(field: FilterField, value: string)
      modifies this
      ensures field == CategoryField ==> filters == old(filters).(category := value)
      ensures field == ExperienceField ==> filters == old(filters).(experienceLevel := value)
      ensures field == SearchField ==> filters == old(filters).(searchTerm := value)
      ensures skills == old(skills) && issued == old(issued) && settled == old(settled)
    {
      match field {
        case CategoryField => filters := filters.(category := value);
        case ExperienceField => filters := filters.(experienceLevel := value);
        case SearchField => filters := filters.(searchTerm := value);
      }
    }

    /** The effect's run after the filters change: `fetchSkills` requests
        `url` with the current filters captured. Nothing cancels the
        requests issued before. */
    method BeginFetchSkills() returns (request: nat, url: string)
      modifies this
      ensures request == |old(issued)| && issued == old(issued) + [filters]
      ensures filters == old(filters) && skills == old(skills) && settled == old(settled)
      ensures filters.category == "" <==> url == SkillsEndpoint
      ensures filters.category != "" ==> url == SkillsEndpoint + "/category/" + filters.category
    {
      request := |issued|;
      issued := issued + [filters];
      url := SkillsUrl(filters.category);
    }

    /** The rest of `fetchSkills` once request `request` answers: the
        answer, filtered by the filters the request was issued under, is
        shown, whether or not a newer request was issued since; a failure is
        only logged. */
    method CompleteFetchSkills(request: nat, response: Outcome<seq<Skill>>)
      requires request < |issued| && request !in settled
      modifies this
      ensures settled == old(settled) + {request}
      ensures filters == old(filters) && issued == old(issued)
      ensures response.Ok? ==> skills == Shown(response.value, issued[request])
      ensures response.Ok? ==> IsSubsequence(skills, response.value)
      ensures response.Failed? ==> skills == old(skills)
    {
      settled := settled + {request};
      if response.Ok? {
        skills := ApplyFilters(response.value, issued[request]);
      }
    }
  }

  /** The experience filter is set to "Expert" while the unfiltered request
      is pending. The newer request answers first and shows only the
      expert skill; the older one answers last and its unfiltered list
      replaces it, so a beginner skill is shown under the "Expert" filter. */
  method StaleResponseOverwrites() returns (b: SkillBrowser)
    ensures b.filters.experienceLevel == "Expert"
    ensures exists s :: s in b.skills && s.experienceLevel == "Beginner"
  {
    var expert := Skill("Music", "Guitar", "", "Expert");
    var beginner := Skill("Music", "Piano", "", "Beginner");
    b := new SkillBrowser();
    var first, _ := b.BeginFetchSkills();
    b.ChangeFilter(ExperienceField, "Expert");
    var second, _ := b.BeginFetchSkills();
    b.CompleteFetchSkills(second, Ok([expert, beginner]));
    b.CompleteFetchSkills(first, Ok([expert, beginner]));
    FilterKeepsAll([expert, beginner], s => Keeps(Filters("", "", ""), s));
    assert b.skills[1] == beginner;
  }
}
