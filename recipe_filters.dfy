/**
 * The filter criteria of the recipe listing page, how they are read from
 * the page's query string (URL seeding), how they are turned into the
 * listing request's query parameters, and whether any filter is active.
 */
module RecipeFilters {
  import opened Wrappers
  import opened JsText

  /** The query-string keys the listing page reads or writes, and any other key. */
  datatype Key =
    | Search | CategoryIds | AllergyIds | DifficultyIds | IsVegan | IsVegetarian
    | IngredientSearch | MaxPrepTime | MinServings | Page | Limit
    | Other(name: string)

  /** The key's name as it appears in a query string. */
  function Name(k: Key): string {
    match k
    case Search => "search"
    case CategoryIds => "categoryIds"
    case AllergyIds => "allergyIds"
    case DifficultyIds => "difficultyIds"
    case IsVegan => "isVegan"
    case IsVegetarian => "isVegetarian"
    case IngredientSearch => "ingredientSearch"
    case MaxPrepTime => "maxPrepTime"
    case MinServings => "minServings"
    case Page => "page"
    case Limit => "limit"
    case Other(n) => n
  }

  /** Reads a key name from a query string; names other than the eleven
      known ones become `Other`. */
  function Classify(s: string): (k: Key)
    ensures Name(k) == s
    ensures k.Other? ==> k.name == s
  {
    if s == "search" then Search
    else if s == "categoryIds" then CategoryIds
    else if s == "allergyIds" then AllergyIds
    else if s == "difficultyIds" then DifficultyIds
    else if s == "isVegan" then IsVegan
    else if s == "isVegetarian" then IsVegetarian
    else if s == "ingredientSearch" then IngredientSearch
    else if s == "maxPrepTime" then MaxPrepTime
    else if s == "minServings" then MinServings
    else if s == "page" then Page
    else if s == "limit" then Limit
    else Other(s)
  }

  /** Every key that can come out of `Classify`: `Other` only for unknown names. */
  predicate Canonical(k: Key) {
    k.Other? ==> Classify(k.name) == k
  }

  /** Classifying a canonical key's name gives the key back, so `Name` is
      one-to-one on canonical keys. */
  lemma ClassifyName(k: Key)
    requires Canonical(k)
    ensures Classify(Name(k)) == k
  {
  }

  /** A key as it is read from a query string: one of the eleven known
      keys, or `Other` for a name that is none of theirs. */
  type CanonicalKey = k: Key | Canonical(k) witness Search

  /** One decoded key/value pair of a query string. */
  type Param = (CanonicalKey, string)

  /** A decoded query string, in order; a key may occur more than once. */
  type Query = seq<Param>

  /** `URLSearchParams.get(name)` on the pairs of a query string as they
      are written: the value of the first pair named `name`. */
  function RawGet(raw: seq<(string, string)>, name: string): Option<string> {
    if raw == [] then None
    else if raw[0].0 == name then Some(raw[0].1)
    else RawGet(raw[1..], name)
  }

  /** A query string's pairs with their names read as keys. */
  function Decode(raw: seq<(string, string)>): (q: Query)
    ensures |q| == |raw|
  {
    if raw == [] then [] else [(Classify(raw[0].0), raw[0].1)] + Decode(raw[1..])
  }

  /** Looking a key up in the decoded pairs is looking its name up in the
      pairs as written. */
  lemma {:induction false} DecodeGet(raw: seq<(string, string)>, key: CanonicalKey)
    ensures Get(Decode(raw), key) == RawGet(raw, Name(key))
    decreases |raw|
  {
    if raw != [] {
      var k := Classify(raw[0].0);
      ClassifyName(key);
      assert k == key <==> raw[0].0 == Name(key);
      assert Decode(raw)[0] == (k, raw[0].1) && Decode(raw)[1..] == Decode(raw[1..]);
      DecodeGet(raw[1..], key);
    }
  }

  /** The nine filter state cells of the listing page. The two numeric
      bounds are held as the raw text the user typed. */
  datatype FilterCriteria = FilterCriteria(
    searchTerm: string,
    categoryIds: seq<string>,
    allergyIds: seq<string>,
    difficultyIds: seq<string>,
    isVegan: bool,
    isVegetarian: bool,
    ingredientSearch: string,
    maxPrepTime: string,
    minServings: string)

  /** The state every filter starts in, and the one "clear filters" restores. */
  const NoFilters := FilterCriteria("", [], [], [], false, false, "", "", "")

  /** `URLSearchParams.get(key)`: the value of the first pair under `key`. */
  function Get(q: Query, key: Key): Option<string> {
    if q == [] then None
    else if q[0].0 == key then Some(q[0].1)
    else Get(q[1..], key)
  }

  /** `get` finds nothing exactly when no pair has the key, and otherwise
      the value of a pair under the key with no earlier pair under it. */
  lemma {:induction false} GetFirst(q: Query, key: Key)
    ensures Get(q, key).None? <==> forall i :: 0 <= i < |q| ==> q[i].0 != key
    ensures Get(q, key).Some? ==>
      exists i :: 0 <= i < |q| && q[i] == (key, Get(q, key).value) && forall j :: 0 <= j < i ==> q[j].0 != key
    decreases |q|
  {
    if q != [] && q[0].0 != key {
      GetFirst(q[1..], key);
      assert forall i :: 1 <= i < |q| ==> q[i] == q[1..][i - 1];
      if Get(q, key).Some? {
        var i :| 0 <= i < |q[1..]| && q[1..][i] == (key, Get(q, key).value) && forall j :: 0 <= j < i ==> q[1..][j].0 != key;
        assert q[i + 1] == (key, Get(q, key).value);
      }
    } else if q != [] {
      assert q[0] == (key, Get(q, key).value);
    }
  }

  /** Looking a key up in a concatenation looks in the first part first. */
  lemma {:induction false} GetAppend(a: Query, b: Query, key: Key)
    ensures Get(a + b, key) == if Get(a, key).Some? then Get(a, key) else Get(b, key)
    decreases |a|
  {
    if a != [] {
      assert (a + b)[1..] == a[1..] + b;
      GetAppend(a[1..], b, key);
    } else {
      assert a + b == b;
    }
  }

  // ---------------------------------------------------------------------
  // URL seeding

  /** No id is empty and none contains the list separator `,`. */
  predicate WellFormedIds(ids: seq<string>) {
    forall i :: 0 <= i < |ids| ==> ids[i] != "" && ',' !in ids[i]
  }

  /** `get(key)?.split(",").filter(Boolean) || []`: an absent parameter is
      the empty list, a present one is split on `,` with empty pieces dropped. */
  function IdsFromParam(v: Option<string>): seq<string> {
    match v
    case None => []
    case Some(s) => DropEmpty(Split(s, ','))
  }

  /** Whatever the parameter holds, the ids read from it are well formed. */
  lemma IdsFromParamWellFormed(v: Option<string>)
    ensures WellFormedIds(IdsFromParam(v))
  {
    if v.Some? {
      var pieces := Split(v.value, ',');
      SplitSpec(v.value, ',');
      DropEmptySpec(pieces);
      var ids := DropEmpty(pieces);
      forall i | 0 <= i < |ids|
        ensures ids[i] != "" && ',' !in ids[i]
      {
        var j :| 0 <= j < |pieces| && pieces[j] == ids[i];
      }
    }
  }

  /** Ids without `,`, joined with `,` and split back as above, come back
      with the empty ones dropped and the rest in order (the empty list
      joins to "" and comes back empty); well-formed ids come back exactly. */
  lemma IdsRoundTrip(ids: seq<string>)
    requires forall i :: 0 <= i < |ids| ==> ',' !in ids[i]
    ensures IdsFromParam(Some(Join(ids, ','))) == DropEmpty(ids)
    ensures WellFormedIds(ids) ==> IdsFromParam(Some(Join(ids, ','))) == ids
  {
    if ids == [] {
      assert Split("", ',') == [""];
    } else {
      SplitJoin(ids, ',');
    }
    DropEmptySpec(ids);
  }

  /** The nine values the seeding effect reads from the page's query string:
      text with `|| ""`, id lists with `IdsFromParam`, and the two flags true
      only for the exact text "true". */
  function UrlCriteria(q: Query): FilterCriteria {
    FilterCriteria(
      Get(q, Search).GetOr(""),
      IdsFromParam(Get(q, CategoryIds)),
      IdsFromParam(Get(q, AllergyIds)),
      IdsFromParam(Get(q, DifficultyIds)),
      Get(q, IsVegan) == Some("true"),
      Get(q, IsVegetarian) == Some("true"),
      Get(q, IngredientSearch).GetOr(""),
      Get(q, MaxPrepTime).GetOr(""),
      Get(q, MinServings).GetOr(""))
  }

  /** Seeding from a query string as written reads each criterion under
      its own name, as the seeding effect does with `searchParams.get`. */
  lemma UrlCriteriaByName(raw: seq<(string, string)>)
    ensures UrlCriteria(Decode(raw)) == FilterCriteria(
      RawGet(raw, "search").GetOr(""),
      IdsFromParam(RawGet(raw, "categoryIds")),
      IdsFromParam(RawGet(raw, "allergyIds")),
      IdsFromParam(RawGet(raw, "difficultyIds")),
      RawGet(raw, "isVegan") == Some("true"),
      RawGet(raw, "isVegetarian") == Some("true"),
      RawGet(raw, "ingredientSearch").GetOr(""),
      RawGet(raw, "maxPrepTime").GetOr(""),
      RawGet(raw, "minServings").GetOr(""))
  {
    DecodeGet(raw, Search);
    DecodeGet(raw, CategoryIds);
    DecodeGet(raw, AllergyIds);
    DecodeGet(raw, DifficultyIds);
    DecodeGet(raw, IsVegan);
    DecodeGet(raw, IsVegetarian);
    DecodeGet(raw, IngredientSearch);
    DecodeGet(raw, MaxPrepTime);
    DecodeGet(raw, MinServings);
  }

  /** `?search=pasta` seeds the search text "pasta" and nothing else. */
  lemma SearchParamSeeds()
    ensures SeedFromUrl(Decode([("search", "pasta")])) == Some(NoFilters.(searchTerm := "pasta"))
  {
    UrlCriteriaByName([("search", "pasta")]);
  }

  /** The id lists seeded from any query string are well formed. */
  lemma UrlIdsWellFormed(q: Query)
    ensures var c := UrlCriteria(q);
      WellFormedIds(c.categoryIds) && WellFormedIds(c.allergyIds) && WellFormedIds(c.difficultyIds)
  {
    IdsFromParamWellFormed(Get(q, CategoryIds));
    IdsFromParamWellFormed(Get(q, AllergyIds));
    IdsFromParamWellFormed(Get(q, DifficultyIds));
  }

  /** Whether any filter is set: a non-empty raw (untrimmed) text field, a
      non-empty id list or a true flag. */
  predicate HasActiveFilters(c: FilterCriteria) {
    || c.searchTerm != ""
    || |c.categoryIds| > 0
    || |c.allergyIds| > 0
    || |c.difficultyIds| > 0
    || c.isVegan
    || c.isVegetarian
    || c.ingredientSearch != ""
    || c.maxPrepTime != ""
    || c.minServings != ""
  }

  /** Nothing is set in the criteria "clear filters" restores. */
  lemma NoFiltersInactive()
    ensures !HasActiveFilters(NoFilters)
    ensures forall c :: !HasActiveFilters(c) ==> c == NoFilters
  {
  }

  /** The URL seeding effect: `Some(c)` when the query string carries at
      least one filter, and then `c` replaces all nine filter cells at once;
      `None` when nothing is to be seeded and the cells stay as they are. */
  function SeedFromUrl(q: Query): (r: Option<FilterCriteria>)
    ensures r.Some? <==> HasActiveFilters(UrlCriteria(q))
    ensures r.Some? ==> r.value == UrlCriteria(q)
  {
    var c := UrlCriteria(q);
    var hasUrlParams :=
      c.searchTerm != "" || |c.categoryIds| > 0 || |c.allergyIds| > 0 || |c.difficultyIds| > 0
      || c.isVegan || c.isVegetarian || c.ingredientSearch != "" || c.maxPrepTime != "" || c.minServings != "";
    if hasUrlParams then Some(c) else None
  }

  /** The nine keys URL seeding reads. */
  predicate IsFilterKey(k: Key) {
    !(k.Page? || k.Limit? || k.Other?)
  }

  /** A query string that names none of the nine filter keys seeds nothing. */
  lemma NoFilterKeysNoSeed(q: Query)
    requires forall i :: 0 <= i < |q| ==> !IsFilterKey(q[i].0)
    ensures SeedFromUrl(q) == None
  {
    GetFirst(q, Search);
    GetFirst(q, CategoryIds);
    GetFirst(q, AllergyIds);
    GetFirst(q, DifficultyIds);
    GetFirst(q, IsVegan);
    GetFirst(q, IsVegetarian);
    GetFirst(q, IngredientSearch);
    GetFirst(q, MaxPrepTime);
    GetFirst(q, MinServings);
    assert Get(q, Search) == None;
    assert Get(q, CategoryIds) == None;
    assert Get(q, AllergyIds) == None;
    assert Get(q, DifficultyIds) == None;
    assert Get(q, IngredientSearch) == None;
    assert Get(q, MaxPrepTime) == None;
    assert Get(q, MinServings) == None;
  }

  // ---------------------------------------------------------------------
  // Request parameters

  /** A key's position in the listing request: the nine optional keys in
      the order the listing page appends them, then `page` and `limit`. */
  function Rank(k: Key): nat {
    match k
    case Search => 0
    case CategoryIds => 1
    case AllergyIds => 2
    case DifficultyIds => 3
    case IsVegan => 4
    case IsVegetarian => 5
    case IngredientSearch => 6
    case MaxPrepTime => 7
    case MinServings => 8
    case Page => 9
    case Limit => 10
    case Other(_) => 11
  }

  /** The condition under which a numeric bound is sent:
      `bound && parseInt(bound, 10) > 0`. */
  predicate PositiveBound(s: string) {
    s != "" && IsPositiveInt(s)
  }

  /** The value the request carries under a filter key, or nothing when the
      key is not appended: trimmed text when non-empty, ids joined with `,`
      when there are any, "true" for a set flag, and a numeric bound as
      typed when it parses to a positive integer. */
  function FilterValue(c: FilterCriteria, key: Key): Option<string> {
    match key
    case Search => var s := Trim(c.searchTerm); if s != "" then Some(s) else None
    case CategoryIds => if |c.categoryIds| > 0 then Some(Join(c.categoryIds, ',')) else None
    case AllergyIds => if |c.allergyIds| > 0 then Some(Join(c.allergyIds, ',')) else None
    case DifficultyIds => if |c.difficultyIds| > 0 then Some(Join(c.difficultyIds, ',')) else None
    case IsVegan => if c.isVegan then Some("true") else None
    case IsVegetarian => if c.isVegetarian then Some("true") else None
    case IngredientSearch => var s := Trim(c.ingredientSearch); if s != "" then Some(s) else None
    case MaxPrepTime => if PositiveBound(c.maxPrepTime) then Some(c.maxPrepTime) else None
    case MinServings => if PositiveBound(c.minServings) then Some(c.minServings) else None
    case _ => None
  }

  /** `params.append(key, value)` when `sent` holds; the parameters unchanged otherwise. */
  function AddIf(ps: Query, sent: bool, key: CanonicalKey, value: string): Query {
    if sent then ps + [(key, value)] else ps
  }

  /** One optional request parameter: whether it is appended, under which
      key, and with which value. */
  datatype Candidate = Candidate(sent: bool, key: CanonicalKey, value: string)

  /** The `n`-th optional parameter the listing page considers, with the
      condition under which it appends it. */
  function OptionalParam(c: FilterCriteria, n: nat): Candidate
    requires n < 9
  {
    if n == 0 then Candidate(Trim(c.searchTerm) != "", Search, Trim(c.searchTerm))
    else if n == 1 then Candidate(|c.categoryIds| > 0, CategoryIds, Join(c.categoryIds, ','))
    else if n == 2 then Candidate(|c.allergyIds| > 0, AllergyIds, Join(c.allergyIds, ','))
    else if n == 3 then Candidate(|c.difficultyIds| > 0, DifficultyIds, Join(c.difficultyIds, ','))
    else if n == 4 then Candidate(c.isVegan, IsVegan, "true")
    else if n == 5 then Candidate(c.isVegetarian, IsVegetarian, "true")
    else if n == 6 then Candidate(Trim(c.ingredientSearch) != "", IngredientSearch, Trim(c.ingredientSearch))
    else if n == 7 then Candidate(PositiveBound(c.maxPrepTime), MaxPrepTime, c.maxPrepTime)
    else Candidate(PositiveBound(c.minServings), MinServings, c.minServings)
  }

  /** The `n`-th optional parameter sits at position `n`, and it is
      appended exactly when `FilterValue` gives its key a value, with that
      value. */
  lemma OptionalParamAgrees(c: FilterCriteria, n: nat)
    requires n < 9
    ensures Rank(OptionalParam(c, n).key) == n
    ensures OptionalParam(c, n).sent <==> FilterValue(c, OptionalParam(c, n).key).Some?
    ensures OptionalParam(c, n).sent ==> OptionalParam(c, n).value == FilterValue(c, OptionalParam(c, n).key).value
  {
  }

  /** The parameters after the first `n` optional parameters have been
      considered, each appended in turn under its condition. */
  function FilterPrefix(c: FilterCriteria, n: nat): Query
    requires n <= 9
  {
    if n == 0 then []
    else
      var x := OptionalParam(c, n - 1);
      AddIf(FilterPrefix(c, n - 1), x.sent, x.key, x.value)
  }

  /** The optional parameters for criteria `c`. */
  function FilterParams(c: FilterCriteria): Query {
    FilterPrefix(c, 9)
  }

  /** The two parameters that close every request. */
  function PagingParams(page: int): Query {
    [(Page, DecimalOf(page)), (Limit, "20")]
  }

  /** The listing request's parameters for criteria `c` and page `page`. */
  function RequestParams(c: FilterCriteria, page: int): Query {
    FilterParams(c) + PagingParams(page)
  }

  /** The first three optional parameters are the listing page's first
      three conditional appends: the search text and two id lists. */
  lemma FilterPrefixUnrolled3(c: FilterCriteria)
    ensures FilterPrefix(c, 3) ==
      AddIf(AddIf(AddIf([],
        Trim(c.searchTerm) != "", Search, Trim(c.searchTerm)),
        |c.categoryIds| > 0, CategoryIds, Join(c.categoryIds, ',')),
        |c.allergyIds| > 0, AllergyIds, Join(c.allergyIds, ','))
  {
    var search := Trim(c.searchTerm);
    var p1 := AddIf([], search != "", Search, search);
    assert FilterPrefix(c, 1) == p1;
    var p2 := AddIf(p1, |c.categoryIds| > 0, CategoryIds, Join(c.categoryIds, ','));
    assert FilterPrefix(c, 2) == p2;
  }

  /** The next three are the difficulty ids and the two diet flags. */
  lemma FilterPrefixUnrolled6(c: FilterCriteria)
    ensures FilterPrefix(c, 6) ==
      AddIf(AddIf(AddIf(FilterPrefix(c, 3),
        |c.difficultyIds| > 0, DifficultyIds, Join(c.difficultyIds, ',')),
        c.isVegan, IsVegan, "true"),
        c.isVegetarian, IsVegetarian, "true")
  {
    var p4 := AddIf(FilterPrefix(c, 3), |c.difficultyIds| > 0, DifficultyIds, Join(c.difficultyIds, ','));
    assert FilterPrefix(c, 4) == p4;
    var p5 := AddIf(p4, c.isVegan, IsVegan, "true");
    assert FilterPrefix(c, 5) == p5;
  }

  /** The last three are the ingredient text and the two numeric bounds. */
  lemma FilterParamsUnrolled(c: FilterCriteria)
    ensures FilterParams(c) ==
      AddIf(AddIf(AddIf(FilterPrefix(c, 6),
        Trim(c.ingredientSearch) != "", IngredientSearch, Trim(c.ingredientSearch)),
        PositiveBound(c.maxPrepTime), MaxPrepTime, c.maxPrepTime),
        PositiveBound(c.minServings), MinServings, c.minServings)
  {
    var ingredients := Trim(c.ingredientSearch);
    var p7 := AddIf(FilterPrefix(c, 6), ingredients != "", IngredientSearch, ingredients);
    assert FilterPrefix(c, 7) == p7;
    var p8 := AddIf(p7, PositiveBound(c.maxPrepTime), MaxPrepTime, c.maxPrepTime);
    assert FilterPrefix(c, 8) == p8;
  }

  /** `if (sent) params.append(key, value)`. */
  method AppendIf(ps: Query, sent: bool, key: CanonicalKey, value: string) returns (ps': Query)
    ensures ps' == AddIf(ps, sent, key, value)
  {
    ps' := ps;
    if sent {
      ps' := ps' + [(key, value)];
    }
  }

  /** `params.append(key, value)`. */
  method Append(ps: Query, key: CanonicalKey, value: string) returns (ps': Query)
    ensures ps' == ps + [(key, value)]
  {
    ps' := ps + [(key, value)];
  }

  /** Two appends of one pair each append the two-pair sequence. */
  lemma AppendTwice(ps: Query, k1: CanonicalKey, v1: string, k2: CanonicalKey, v2: string)
    ensures ps + [(k1, v1)] + [(k2, v2)] == ps + [(k1, v1), (k2, v2)]
  {
  }

  /** The request parameters, built by successive conditional appends as
      the listing page does with its `URLSearchParams`. */
  method BuildParams(c: FilterCriteria, page: int) returns (ps: Query)
    ensures ps == RequestParams(c, page)
  {
    ps := [];
    var search := Trim(c.searchTerm);
    ps := AppendIf(ps, search != "", Search, search);
    ps := AppendIf(ps, |c.categoryIds| > 0, CategoryIds, Join(c.categoryIds, ','));
    ps := AppendIf(ps, |c.allergyIds| > 0, AllergyIds, Join(c.allergyIds, ','));
    FilterPrefixUnrolled3(c);
    ps := AppendIf(ps, |c.difficultyIds| > 0, DifficultyIds, Join(c.difficultyIds, ','));
    ps := AppendIf(ps, c.isVegan, IsVegan, "true");
    ps := AppendIf(ps, c.isVegetarian, IsVegetarian, "true");
    FilterPrefixUnrolled6(c);
    var ingredients := Trim(c.ingredientSearch);
    ps := AppendIf(ps, ingredients != "", IngredientSearch, ingredients);
    ps := AppendIf(ps, PositiveBound(c.maxPrepTime), MaxPrepTime, c.maxPrepTime);
    ps := AppendIf(ps, PositiveBound(c.minServings), MinServings, c.minServings);
    FilterParamsUnrolled(c);
    ghost var filters := ps;
    ps := Append(ps, Page, DecimalOf(page));
    ps := Append(ps, Limit, "20");
    AppendTwice(filters, Page, DecimalOf(page), Limit, "20");
  }

  // ---------------------------------------------------------------------
  // Properties of the request parameters

  /** A lookup after a conditional append: an earlier pair under `key`
      still wins; otherwise the appended pair is found when it was sent
      under `key`. */
  lemma GetAddIf(ps: Query, sent: bool, k: CanonicalKey, v: string, key: Key)
    ensures Get(AddIf(ps, sent, k, v), key) ==
      if Get(ps, key).Some? then Get(ps, key) else if sent && k == key then Some(v) else None
  {
    GetAppend(ps, [(k, v)], key);
  }

  /** `page` and `limit`, and nothing else, are found in the paging pair. */
  lemma GetPaging(page: int, key: Key)
    ensures Get(PagingParams(page), key) ==
      match key case Page => Some(DecimalOf(page)) case Limit => Some("20") case _ => None
  {
    var q: Query := PagingParams(page);
    assert q[1..] == [(Limit, "20")];
    assert q[1..][1..] == [];
    assert Get(q[1..][1..], key) == None;
    assert Get(q[1..], key) == if key == Limit then Some("20") else None;
  }

  /** The value the request carries under `key`: the filter value for a
      filter key, the page number in decimal for `page`, the constant 20 for
      `limit`, and nothing for any other key. */
  function Expected(c: FilterCriteria, page: int, key: Key): Option<string> {
    match key
    case Page => Some(DecimalOf(page))
    case Limit => Some("20")
    case _ => FilterValue(c, key)
  }

  /** Two keys at the same position are the same key. */
  lemma RankInjective(a: Key, b: Key)
    requires Rank(a) == Rank(b) < 11
    ensures a == b
  {
  }

  /** After the first `n` optional parameters, a key before position `n`
      holds its filter value and any other key is absent. */
  lemma {:induction false} FilterPrefixGet(c: FilterCriteria, n: nat, key: Key)
    requires n <= 9
    ensures Get(FilterPrefix(c, n), key) == if Rank(key) < n then FilterValue(c, key) else None
  {
    if n > 0 {
      FilterPrefixGet(c, n - 1, key);
      var x := OptionalParam(c, n - 1);
      OptionalParamAgrees(c, n - 1);
      GetAddIf(FilterPrefix(c, n - 1), x.sent, x.key, x.value, key);
      if Rank(key) == n - 1 {
        RankInjective(key, x.key);
      }
    }
  }

  /** Every key of the request holds exactly what the listing page appends
      under it: an optional parameter is present exactly under its condition,
      `page` and `limit` are always present, and no other key is. */
  lemma RequestParamsGet(c: FilterCriteria, page: int, key: Key)
    ensures Get(RequestParams(c, page), key) == Expected(c, page, key)
  {
    GetAppend(FilterParams(c), PagingParams(page), key);
    FilterPrefixGet(c, 9, key);
    GetPaging(page, key);
  }

  /** Keys strictly ascend in position, so no key occurs twice. */
  predicate KeysAscending(q: Query) {
    forall i, j :: 0 <= i < j < |q| ==> Rank(q[i].0) < Rank(q[j].0)
  }

  /** Every key of `q` sits before position `n`. */
  predicate RanksBelow(q: Query, n: nat) {
    forall i :: 0 <= i < |q| ==> Rank(q[i].0) < n
  }

  /** The first `n` optional parameters come in the listing page's order. */
  lemma {:induction false} FilterPrefixAscending(c: FilterCriteria, n: nat)
    requires n <= 9
    ensures KeysAscending(FilterPrefix(c, n)) && RanksBelow(FilterPrefix(c, n), n)
  {
    if n > 0 {
      FilterPrefixAscending(c, n - 1);
      OptionalParamAgrees(c, n - 1);
    }
  }

  /** Closing ordered parameters with `page` and `limit` keeps them ordered. */
  lemma PagingKeepsAscending(f: Query, page: int)
    requires KeysAscending(f) && RanksBelow(f, 9)
    ensures KeysAscending(f + PagingParams(page))
  {
  }

  /** The request lists its keys in the listing page's order, each at most
      once, and always ends with `page` and then `limit`. */
  lemma RequestKeysAscending(c: FilterCriteria, page: int)
    ensures KeysAscending(RequestParams(c, page))
    ensures forall i, j :: 0 <= i < j < |RequestParams(c, page)| ==>
      RequestParams(c, page)[i].0 != RequestParams(c, page)[j].0
    ensures |RequestParams(c, page)| >= 2
    ensures RequestParams(c, page)[|RequestParams(c, page)| - 2..] == PagingParams(page)
  {
    FilterPrefixAscending(c, 9);
    PagingKeepsAscending(FilterParams(c), page);
    var q := RequestParams(c, page);
    assert q[|q| - 2..] == PagingParams(page);
  }

  // ---------------------------------------------------------------------
  // What a request carries

  /** Whether the request carries any optional parameter: a search or
      ingredient text that is not blank once trimmed, a non-empty id list, a
      set flag, or a positive numeric bound. */
  predicate SendsFilters(c: FilterCriteria) {
    || Trim(c.searchTerm) != ""
    || |c.categoryIds| > 0
    || |c.allergyIds| > 0
    || |c.difficultyIds| > 0
    || c.isVegan
    || c.isVegetarian
    || Trim(c.ingredientSearch) != ""
    || PositiveBound(c.maxPrepTime)
    || PositiveBound(c.minServings)
  }

  /** The request carries some optional parameter exactly when some filter
      key has a value. */
  lemma SendsFiltersByKey(c: FilterCriteria)
    ensures SendsFilters(c) <==> exists k :: Rank(k) < 9 && FilterValue(c, k).Some?
  {
    if Trim(c.searchTerm) != "" {
      assert FilterValue(c, Search).Some?;
    } else if |c.categoryIds| > 0 {
      assert FilterValue(c, CategoryIds).Some?;
    } else if |c.allergyIds| > 0 {
      assert FilterValue(c, AllergyIds).Some?;
    } else if |c.difficultyIds| > 0 {
      assert FilterValue(c, DifficultyIds).Some?;
    } else if c.isVegan {
      assert FilterValue(c, IsVegan).Some?;
    } else if c.isVegetarian {
      assert FilterValue(c, IsVegetarian).Some?;
    } else if Trim(c.ingredientSearch) != "" {
      assert FilterValue(c, IngredientSearch).Some?;
    } else if PositiveBound(c.maxPrepTime) {
      assert FilterValue(c, MaxPrepTime).Some?;
    } else if PositiveBound(c.minServings) {
      assert FilterValue(c, MinServings).Some?;
    } else {
      forall k | Rank(k) < 9
        ensures FilterValue(c, k).None?
      {
        match k {
          case Search =>
          case CategoryIds =>
          case AllergyIds =>
          case DifficultyIds =>
          case IsVegan =>
          case IsVegetarian =>
          case IngredientSearch =>
          case MaxPrepTime =>
          case MinServings =>
          case Page =>
          case Limit =>
          case Other(_) =>
        }
      }
    }
  }

  /** The request carries nothing but `page` and `limit` exactly when no
      optional parameter's condition holds. */
  lemma FilterParamsEmpty(c: FilterCriteria, page: int)
    ensures RequestParams(c, page) == PagingParams(page) <==> !SendsFilters(c)
  {
    var f := FilterParams(c);
    SendsFiltersByKey(c);
    forall k | Rank(k) < 9
      ensures Get(f, k) == FilterValue(c, k)
    {
      FilterPrefixGet(c, 9, k);
    }
    if f != [] {
      var k := f[0].0;
      assert Get(f, k) == Some(f[0].1);
      FilterPrefixGet(c, 9, k);
      assert |RequestParams(c, page)| > 2;
    } else {
      assert RequestParams(c, page) == PagingParams(page);
    }
  }

  /** A numeric bound as it survives a request: kept as typed when it is
      sent, blank otherwise. */
  function SentBound(s: string): string {
    if PositiveBound(s) then s else ""
  }

  /** A surviving bound survives again, and is sent exactly when the
      original was. */
  lemma SentBoundStable(s: string)
    ensures SentBound(s) == "" || SentBound(s) == s
    ensures SentBound(s) != "" <==> PositiveBound(s)
    ensures SentBound(SentBound(s)) == SentBound(s)
    ensures PositiveBound(SentBound(s)) <==> PositiveBound(s)
  {
  }

  /** The criteria as the request carries them: both texts trimmed and
      numeric bounds that are not sent blanked; ids and flags as they are. */
  function Normalise(c: FilterCriteria): FilterCriteria {
    FilterCriteria(
      Trim(c.searchTerm), c.categoryIds, c.allergyIds, c.difficultyIds,
      c.isVegan, c.isVegetarian, Trim(c.ingredientSearch),
      SentBound(c.maxPrepTime), SentBound(c.minServings))
  }

  lemma NormaliseIdempotent(c: FilterCriteria)
    ensures Normalise(Normalise(c)) == Normalise(c)
  {
    TrimIdempotent(c.searchTerm);
    TrimIdempotent(c.ingredientSearch);
    SentBoundStable(c.maxPrepTime);
    SentBoundStable(c.minServings);
  }
  /** After normalising, "some filter is active" and "the request carries
      some filter" agree, and normalising does not change what is sent. */
  lemma NormaliseActive(c: FilterCriteria)
    ensures HasActiveFilters(Normalise(c)) <==> SendsFilters(c)
    ensures SendsFilters(Normalise(c)) <==> SendsFilters(c)
  {
    var n := Normalise(c);
    TrimIdempotent(c.searchTerm);
    TrimIdempotent(c.ingredientSearch);
    SentBoundStable(c.maxPrepTime);
    SentBoundStable(c.minServings);
  }

  /** Every filter the request carries is active on the page. */
  lemma SentFiltersAreActive(c: FilterCriteria)
    ensures SendsFilters(c) ==> HasActiveFilters(c)
  {
  }

  /** The converse fails: a search text of blanks is active on the page
      (the "clear filters" control shows) while the request carries no
      filter at all. */
  lemma BlankSearchActiveButUnsent()
    ensures var c := NoFilters.(searchTerm := " ");
      HasActiveFilters(c) && !SendsFilters(c) && RequestParams(c, 1) == PagingParams(1)
  {
  }

  /** A list parameter read back from a request gives the ids that were sent. */
  lemma IdsReadBack(ids: seq<string>, v: Option<string>)
    requires WellFormedIds(ids)
    requires v == if |ids| > 0 then Some(Join(ids, ',')) else None
    ensures IdsFromParam(v) == ids
  {
    if |ids| > 0 {
      IdsRoundTrip(ids);
    }
  }

  /** The text fields of a query carrying what criteria `c` send are read
      back trimmed, and the numeric bounds blank unless they were sent. */
  lemma TextsReadBack(q: Query, c: FilterCriteria)
    requires Get(q, Search) == FilterValue(c, Search)
    requires Get(q, IngredientSearch) == FilterValue(c, IngredientSearch)
    requires Get(q, MaxPrepTime) == FilterValue(c, MaxPrepTime)
    requires Get(q, MinServings) == FilterValue(c, MinServings)
    ensures var u, n := UrlCriteria(q), Normalise(c);
      && u.searchTerm == n.searchTerm && u.ingredientSearch == n.ingredientSearch
      && u.maxPrepTime == n.maxPrepTime && u.minServings == n.minServings
  {
  }

  /** The id lists and flags of a query carrying what criteria `c` send
      are read back as they were. */
  lemma ListsReadBack(q: Query, c: FilterCriteria)
    requires WellFormedIds(c.categoryIds) && WellFormedIds(c.allergyIds) && WellFormedIds(c.difficultyIds)
    requires Get(q, CategoryIds) == FilterValue(c, CategoryIds)
    requires Get(q, AllergyIds) == FilterValue(c, AllergyIds)
    requires Get(q, DifficultyIds) == FilterValue(c, DifficultyIds)
    requires Get(q, IsVegan) == FilterValue(c, IsVegan)
    requires Get(q, IsVegetarian) == FilterValue(c, IsVegetarian)
    ensures var u, n := UrlCriteria(q), Normalise(c);
      && u.categoryIds == n.categoryIds && u.allergyIds == n.allergyIds
      && u.difficultyIds == n.difficultyIds
      && u.isVegan == n.isVegan && u.isVegetarian == n.isVegetarian
  {
    IdsReadBack(c.categoryIds, Get(q, CategoryIds));
    IdsReadBack(c.allergyIds, Get(q, AllergyIds));
    IdsReadBack(c.difficultyIds, Get(q, DifficultyIds));
  }

  /** A query whose filter parameters are the ones criteria `c` send is
      read back as `c` normalised. */
  lemma CriteriaFromValues(q: Query, c: FilterCriteria)
    requires WellFormedIds(c.categoryIds) && WellFormedIds(c.allergyIds) && WellFormedIds(c.difficultyIds)
    requires Get(q, Search) == FilterValue(c, Search)
    requires Get(q, CategoryIds) == FilterValue(c, CategoryIds)
    requires Get(q, AllergyIds) == FilterValue(c, AllergyIds)
    requires Get(q, DifficultyIds) == FilterValue(c, DifficultyIds)
    requires Get(q, IsVegan) == FilterValue(c, IsVegan)
    requires Get(q, IsVegetarian) == FilterValue(c, IsVegetarian)
    requires Get(q, IngredientSearch) == FilterValue(c, IngredientSearch)
    requires Get(q, MaxPrepTime) == FilterValue(c, MaxPrepTime)
    requires Get(q, MinServings) == FilterValue(c, MinServings)
    ensures UrlCriteria(q) == Normalise(c)
  {
    TextsReadBack(q, c);
    ListsReadBack(q, c);
  }

  /** Reading a request's parameters back as a query string gives the
      normalised criteria, provided no id is empty or contains `,`. */
  lemma UrlRoundTrip(c: FilterCriteria, page: int)
    requires WellFormedIds(c.categoryIds) && WellFormedIds(c.allergyIds) && WellFormedIds(c.difficultyIds)
    ensures UrlCriteria(RequestParams(c, page)) == Normalise(c)
  {
    var q := RequestParams(c, page);
    RequestParamsGet(c, page, Search);
    RequestParamsGet(c, page, CategoryIds);
    RequestParamsGet(c, page, AllergyIds);
    RequestParamsGet(c, page, DifficultyIds);
    RequestParamsGet(c, page, IsVegan);
    RequestParamsGet(c, page, IsVegetarian);
    RequestParamsGet(c, page, IngredientSearch);
    RequestParamsGet(c, page, MaxPrepTime);
    RequestParamsGet(c, page, MinServings);
    CriteriaFromValues(q, c);
  }

  /** URL seeding from a request's parameters adopts the normalised criteria
      exactly when the request carries some filter. */
  lemma SeedRoundTrip(c: FilterCriteria, page: int)
    requires WellFormedIds(c.categoryIds) && WellFormedIds(c.allergyIds) && WellFormedIds(c.difficultyIds)
    ensures SeedFromUrl(RequestParams(c, page)) == if SendsFilters(c) then Some(Normalise(c)) else None
  {
    UrlRoundTrip(c, page);
    NormaliseActive(c);
  }
}
