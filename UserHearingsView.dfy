/** The "my hearings" view (src/views/UserHearings/index.js): which hearing lists it requests
    from the API and with which query parameters, its small state (own or organisation
    hearings, sort order, tool drop-down), when it refetches, and how a list is shown. */
module UserHearingsView {
  import opened Js

  /** The three lists the view shows. */
  datatype HearingList = Open | Closed | Draft

  /** `GET_HEARINGS`: the store key of each list. */
  function ListId(list: HearingList): string {
    match list
    case Open => "userHearingsOpen"
    case Closed => "userHearingsClosed"
    case Draft => "userHearingsDrafts"
  }

  /** The hearing API endpoint every list is fetched from. */
  const HearingEndpoint: string := "/v1/hearing/"

  /** Query parameters, by name. */
  type Params = map<string, Value>

  /** `SEARCH_PARAMS[list]`. */
  function SearchParams(list: HearingList): (r: Params)
    ensures r.Keys == if list == Draft then {"published", "limit"} else {"published", "open", "limit"}
    ensures r["limit"] == Num(4.0)
    ensures r["published"] == Str(if list == Draft then "false" else "true")
    ensures list != Draft ==> r["open"] == Str(if list == Open then "true" else "false")
  {
    match list
    case Open => map["published" := Str("true"), "open" := Str("true"), "limit" := Num(4.0)]
    case Closed => map["published" := Str("true"), "open" := Str("false"), "limit" := Num(4.0)]
    case Draft => map["published" := Str("false"), "limit" := Num(4.0)]
  }

  /** `Object.entries(SEARCH_PARAMS[list])`: the parameters in the order they are written. */
  function SearchParamEntries(list: HearingList): seq<(string, Value)> {
    match list
    case Open => [("published", Str("true")), ("open", Str("true")), ("limit", Num(4.0))]
    case Closed => [("published", Str("true")), ("open", Str("false")), ("limit", Num(4.0))]
    case Draft => [("published", Str("false")), ("limit", Num(4.0))]
  }

  /** `Object.fromEntries(entries)`: a later entry for the same name wins. */
  function FromEntries(entries: seq<(string, Value)>): Params
    decreases |entries|
  {
    if entries == [] then map[]
    else
      var last := entries[|entries| - 1];
      FromEntries(entries[..|entries| - 1])[last.0 := last.1]
  }

  /** The entries name every parameter, each with its value. */
  lemma EntriesOfSearchParams(list: HearingList)
    ensures FromEntries(SearchParamEntries(list)) == SearchParams(list)
  {
    var e := SearchParamEntries(list);
    assert e[..|e| - 1][..|e| - 2] == e[..|e| - 2];
    var first := FromEntries(e[..1]);
    assert e[..1][..0] == [] && e[..1][0] == e[0];
    assert first == FromEntries(e[..1][..0])[e[0].0 := e[0].1];
    assert first == map[e[0].0 := e[0].1];
    if list != Draft {
      assert e[..2][..1] == e[..1];
      assert FromEntries(e[..2]) == first[e[1].0 := e[1].1];
      assert FromEntries(e) == FromEntries(e[..2])[e[2].0 := e[2].1];
    } else {
      assert FromEntries(e) == first[e[1].0 := e[1].1];
    }
  }

  /** The entries other than `limit`, in order. */
  function EntriesWithoutLimit(entries: seq<(string, Value)>): seq<(string, Value)>
    decreases |entries|
  {
    if entries == [] then []
    else
      var last := entries[|entries| - 1];
      EntriesWithoutLimit(entries[..|entries| - 1]) + (if last.0 != "limit" then [last] else [])
  }

  /** Dropping the `limit` entries drops exactly the `limit` parameter. */
  lemma {:induction false} WithoutLimitEntries(entries: seq<(string, Value)>)
    ensures FromEntries(EntriesWithoutLimit(entries)) == FromEntries(entries) - {"limit"}
    decreases |entries|
  {
    if entries != [] {
      var init := entries[..|entries| - 1];
      var last := entries[|entries| - 1];
      WithoutLimitEntries(init);
      var before := FromEntries(init);
      if last.0 != "limit" {
        var kept := EntriesWithoutLimit(init) + [last];
        assert kept[..|kept| - 1] == EntriesWithoutLimit(init);
        assert FromEntries(kept) == (before - {"limit"})[last.0 := last.1];
        assert (before - {"limit"})[last.0 := last.1] == before[last.0 := last.1] - {"limit"};
      } else {
        assert EntriesWithoutLimit(entries) == EntriesWithoutLimit(init);
        assert before - {"limit"} == before[last.0 := last.1] - {"limit"};
      }
    }
  }

  /** The signed-in user, as far as the view reads it. */
  datatype User = User(adminOrganizations: seq<string>)

  /** `getDefaultParams()`: the hearing creator is `me` for own hearings and the first of the
      user's organisations otherwise (`undefined` when there is none); reading organisations
      without a user throws. */
  function DefaultParams(loadOwn: bool, sortHearingsBy: string, user: Option<User>): (r: Result<Params>)
    ensures r.Err? <==> !loadOwn && user.None?
    ensures r.Ok? ==> r.value.Keys == {"created_by", "ordering"} && r.value["ordering"] == Str(sortHearingsBy)
    ensures r.Ok? && loadOwn ==> r.value["created_by"] == Str("me")
    ensures r.Ok? && !loadOwn ==>
              r.value["created_by"] == if user.value.adminOrganizations == [] then Undefined
                                       else Str(user.value.adminOrganizations[0])
  {
    var creator :- if loadOwn then Ok(Str("me"))
                   else if user.None? then Err(TypeError)
                   else if user.value.adminOrganizations == [] then Ok(Undefined)
                   else Ok(Str(user.value.adminOrganizations[0]));
    Ok(map["created_by" := creator, "ordering" := Str(sortHearingsBy)])
  }

  /** One call of `fetchHearingList(listID, endpoint, params)`. */
  datatype Request = Request(listId: string, endpoint: string, params: Params)

  /** `fetchHearing(list, {...SEARCH_PARAMS[list], ...defaults})`. */
  function ListRequest(list: HearingList, defaults: Params): Request {
    Request(ListId(list), HearingEndpoint, SearchParams(list) + defaults)
  }

  /** A list request carries the list's search parameters under the defaults: a default wins
      over a search parameter of the same name, and nothing else is added. */
  lemma ListRequestParams(list: HearingList, defaults: Params)
    ensures ListRequest(list, defaults).endpoint == HearingEndpoint
    ensures ListRequest(list, defaults).params.Keys == SearchParams(list).Keys + defaults.Keys
    ensures forall k :: k in defaults ==> ListRequest(list, defaults).params[k] == defaults[k]
    ensures forall k :: k in SearchParams(list) && k !in defaults ==>
              ListRequest(list, defaults).params[k] == SearchParams(list)[k]
    ensures "limit" !in defaults ==> ListRequest(list, defaults).params["limit"] == Num(4.0)
  {
  }

  /** The requests of one `fetchAllHearings`. */
  function AllListRequests(defaults: Params): seq<Request> {
    [ListRequest(Open, defaults), ListRequest(Closed, defaults), ListRequest(Draft, defaults)]
  }

  /** One `fetchAllHearings` asks for the open, closed and draft hearings, in this order, each
      with `limit: 4` and its list's flags unless a default overrides them. */
  lemma FetchesThreeLists(defaults: Params)
    ensures var r := AllListRequests(defaults);
            && |r| == 3
            && r[0].listId == "userHearingsOpen" && r[1].listId == "userHearingsClosed" && r[2].listId == "userHearingsDrafts"
            && (forall i :: 0 <= i < 3 ==> r[i].endpoint == HearingEndpoint)
            && ("limit" !in defaults ==> forall i :: 0 <= i < 3 ==> Get(r[i].params, "limit") == Num(4.0))
            && ("published" !in defaults ==>
                  && Get(r[0].params, "published") == Str("true") && Get(r[1].params, "published") == Str("true")
                  && Get(r[2].params, "published") == Str("false"))
            && ("open" !in defaults ==>
                  && Get(r[0].params, "open") == Str("true") && Get(r[1].params, "open") == Str("false")
                  && "open" !in r[2].params)
  {
  }

  /** `n` rounds of `fetchAllHearings` requests, one after the other. */
  function Rounds(defaults: Params, n: nat): (r: seq<Request>)
    ensures |r| == 3 * n
  {
    if n == 0 then [] else AllListRequests(defaults) + Rounds(defaults, n - 1)
  }

  /** ASCII `toUpperCase`. */
  function UpperCase(s: string): (r: string)
    ensures |r| == |s|
  {
    seq(|s|, i requires 0 <= i < |s| => if 'a' <= s[i] <= 'z' then (s[i] as int - 32) as char else s[i])
  }

  /** `SEARCH_PARAMS[type.toUpperCase()]`: the list a type name denotes, if any. */
  function ListOfType(hearingType: string): (r: Option<HearingList>)
    ensures r.Some? <==> UpperCase(hearingType) in {"OPEN", "CLOSED", "DRAFT"}
    ensures hearingType == "open" ==> r == Some(Open)
    ensures hearingType == "closed" ==> r == Some(Closed)
    ensures hearingType == "draft" ==> r == Some(Draft)
  {
    var upper := UpperCase(hearingType);
    if upper == "OPEN" then Some(Open)
    else if upper == "CLOSED" then Some(Closed)
    else if upper == "DRAFT" then Some(Draft)
    else None
  }

  /** What request the "show all" button issues: the list's search parameters other than
      `limit`, with the defaults. */
  function RemainingRequest(list: HearingList, defaults: Params): Request {
    Request(ListId(list), HearingEndpoint, (SearchParams(list) - {"limit"}) + defaults)
  }

  /** The "show all" request is the list's first request without its `limit`: every other
      parameter is the same. */
  lemma RemainingRequestDropsOnlyLimit(list: HearingList, defaults: Params)
    requires "limit" !in defaults
    ensures RemainingRequest(list, defaults).params == ListRequest(list, defaults).params - {"limit"}
    ensures RemainingRequest(list, defaults).listId == ListRequest(list, defaults).listId
    ensures "limit" in ListRequest(list, defaults).params && "limit" !in RemainingRequest(list, defaults).params
  {
    var a := RemainingRequest(list, defaults).params;
    var b := ListRequest(list, defaults).params - {"limit"};
    assert a.Keys == b.Keys;
  }

  /** The "show all" button is shown for a list of exactly four cards whose total count is
      more than four. */
  predicate ShowAll(cardCount: int, hearingCount: Value): (r: bool)
    ensures r <==> cardCount == 4 && hearingCount.Num? && hearingCount.n > 4.0
    ensures r ==> hearingCount.Num? && hearingCount.n > cardCount as real
  {
    cardCount == 4 && NumLess(Num(4.0), hearingCount)
  }

  /** A hearing card: its React key (the hearing's slug), the hearing, and the locale. */
  datatype Card = Card(key: Value, hearing: Value, language: string)

  /** How a hearing list is shown. */
  datatype Listing = Spinner | NoHearings | Cards(cards: seq<Card>, showAll: bool)

  /** The conditions under which `componentDidUpdate` fetches all lists: a user with an
      organisation appeared, and the ownership filter or the sort order changed. Each one
      triggers its own round. */
  function RefetchRounds(previousUser: Option<User>, user: Option<User>, previousLoadOwn: bool, loadOwn: bool,
                         previousSort: string, sortHearingsBy: string): (n: nat)
    ensures n <= 2
    ensures n == 0 <==> !(previousUser.None? && user.Some? && user.value.adminOrganizations != []
                          && user.value.adminOrganizations[0] != "")
                        && previousLoadOwn == loadOwn && previousSort == sortHearingsBy
  {
    (if previousUser.None? && user.Some? && user.value.adminOrganizations != []
        && user.value.adminOrganizations[0] != "" then 1 else 0)
    + (if previousLoadOwn != loadOwn || previousSort != sortHearingsBy then 1 else 0)
  }

  class UserHearings {
    /** `state.loadOwn`: own hearings (true) or the organisation's. */
    var loadOwn: bool
    /** `state.openTools`: the tool drop-down is open. */
    var openTools: bool
    /** `state.sortHearingsBy`. */
    var sortHearingsBy: string
    /** `props.user`. */
    var user: Option<User>
    /** The `fetchHearingList` calls made so far, oldest first. */
    var requests: seq<Request>

    /** The constructor's initial state. */
    constructor (user: Option<User>)
      ensures loadOwn && !openTools && sortHearingsBy == "-created_at"
      ensures this.user == user && requests == []
    {
      loadOwn := true;
      openTools := false;
      sortHearingsBy := "-created_at";
      this.user := user;
      requests := [];
    }

    /** `getDefaultParams()` on the current state. */
    function Defaults(): Result<Params>
      reads this
    {
      DefaultParams(loadOwn, sortHearingsBy, user)
    }

    /** `fetchAllHearings()`: requests the open, closed and draft lists. */
    method FetchAllHearings() returns (outcome: Outcome)
      modifies this`requests
      ensures Defaults().Ok? ==> outcome == Done && requests == old(requests) + AllListRequests(Defaults().value)
      ensures Defaults().Err? ==> outcome == Threw(TypeError) && requests == old(requests)
    {
      var params := DefaultParams(loadOwn, sortHearingsBy, user);
      if params.Err? {
        return Threw(params.error);
      }
      requests := requests + [ListRequest(Open, params.value)];
      requests := requests + [ListRequest(Closed, params.value)];
      requests := requests + [ListRequest(Draft, params.value)];
      return Done;
    }

    /** The reduce of `getRemainingHearings` over the search parameter entries. */
    static method DropLimit(entries: seq<(string, Value)>) returns (kept: seq<(string, Value)>)
      ensures kept == EntriesWithoutLimit(entries)
    {
      kept := [];
      var i := 0;
      while i < |entries|
        invariant 0 <= i <= |entries|
        invariant kept == EntriesWithoutLimit(entries[..i])
      {
        assert entries[..i + 1][..i] == entries[..i];
        if entries[i].0 != "limit" {
          kept := kept + [entries[i]];
        }
        i := i + 1;
      }
      assert entries[..i] == entries;
    }

    /** `getRemainingHearings(hearingType)`: requests the whole list without `limit`. A type
        name that is not one of the lists throws. */
    method GetRemainingHearings(hearingType: string) returns (outcome: Outcome)
      modifies this`requests
      ensures Defaults().Ok? && ListOfType(hearingType).Some? ==>
                && outcome == Done
                && requests == old(requests) + [RemainingRequest(ListOfType(hearingType).value, Defaults().value)]
      ensures Defaults().Err? || ListOfType(hearingType).None? ==> outcome == Threw(TypeError) && requests == old(requests)
    {
      var params := DefaultParams(loadOwn, sortHearingsBy, user);
      if params.Err? {
        return Threw(params.error);
      }
      var list := ListOfType(hearingType);
      if list.None? {
        return Threw(TypeError);
      }
      var entries := DropLimit(SearchParamEntries(list.value));
      WithoutLimitEntries(SearchParamEntries(list.value));
      EntriesOfSearchParams(list.value);
      requests := requests + [Request(ListId(list.value), HearingEndpoint, FromEntries(entries) + params.value)];
      return Done;
    }

    /** `toggleHearingCreator`: switches between own and organisation hearings. */
    method ToggleHearingCreator()
      modifies this`loadOwn
      ensures loadOwn == !old(loadOwn)
    {
      loadOwn := !loadOwn;
    }

    /** `toggleDropdown`: opens or closes the tool drop-down. */
    method ToggleDropdown()
      modifies this`openTools
      ensures openTools == !old(openTools)
    {
      openTools := !openTools;
    }

    /** `changeSort(event)`: the sort order chosen in the selector. */
    method ChangeSort(value: string)
      modifies this`sortHearingsBy
      ensures sortHearingsBy == value
    {
      sortHearingsBy := value;
    }

    /** `componentDidMount`: fetches all lists once a user is signed in. */
    method ComponentDidMount(userExists: bool) returns (outcome: Outcome)
      modifies this`requests
      ensures userExists && user.Some? ==> outcome == Done && requests == old(requests) + AllListRequests(Defaults().value)
      ensures !(userExists && user.Some?) ==> outcome == Done && requests == old(requests)
    {
      if userExists && user.Some? {
        outcome := FetchAllHearings();
      } else {
        outcome := Done;
      }
    }

    /** `componentDidUpdate(prevProps, prevState)`, given the previous user and state. */
    method ComponentDidUpdate(previousUser: Option<User>, previousLoadOwn: bool, previousSort: string)
      returns (outcome: Outcome)
      modifies this`requests
      ensures var n := RefetchRounds(previousUser, user, previousLoadOwn, loadOwn, previousSort, sortHearingsBy);
              && (Defaults().Ok? ==> outcome == Done && requests == old(requests) + Rounds(Defaults().value, n))
              && (Defaults().Err? && n > 0 ==> outcome == Threw(TypeError) && requests == old(requests))
              && (n == 0 ==> outcome == Done && requests == old(requests))
    {
      outcome := Done;
      if previousUser.None? && user.Some? && user.value.adminOrganizations != []
         && user.value.adminOrganizations[0] != "" {
        outcome := FetchAllHearings();
        if outcome.Threw? {
          return;
        }
      }
      if previousLoadOwn != loadOwn || previousSort != sortHearingsBy {
        outcome := FetchAllHearings();
      }
    }

    /** `getHearingCards(hearings)`: one card per hearing, in order, keyed by its slug. */
    static method GetHearingCards(hearings: Value, locale: string) returns (r: Result<seq<Card>>)
      ensures r.Ok? <==> hearings.Arr? && AllPresent(hearings.items)
      ensures r.Ok? ==> |r.value| == |hearings.items|
      ensures r.Ok? ==> forall i :: 0 <= i < |hearings.items| ==>
                          r.value[i] == Card(Member(hearings.items[i], "slug").value, hearings.items[i], locale)
    {
      if !hearings.Arr? {
        return Err(TypeError);
      }
      var cards: seq<Card> := [];
      var i := 0;
      while i < |hearings.items|
        invariant 0 <= i <= |hearings.items|
        invariant AllPresent(hearings.items[..i])
        invariant |cards| == i
        invariant forall j :: 0 <= j < i ==> cards[j] == Card(Member(hearings.items[j], "slug").value, hearings.items[j], locale)
      {
        var hearing := hearings.items[i];
        var slug := Member(hearing, "slug");
        if slug.Err? {
          return Err(slug.error);
        }
        cards := cards + [Card(slug.value, hearing, locale)];
        i := i + 1;
      }
      assert hearings.items[..i] == hearings.items;
      return Ok(cards);
    }

    /** `getHearingListing(type)`, given `fetching[type]`, `hearingData[type]` and
        `hearingCount[type]`: a spinner while fetching, a notice for an empty list, else the
        cards and, under the show-all condition, the "show all" button. */
    static method GetHearingListing(fetching: Value, hearings: Value, hearingCount: Value, locale: string)
      returns (r: Result<Listing>)
      ensures Truthy(fetching) ==> r == Ok(Spinner)
      ensures !Truthy(fetching) ==> (r.Ok? <==> hearings.Arr? && AllPresent(hearings.items))
      ensures !Truthy(fetching) && r.Ok? && hearings.items == [] ==> r.value == NoHearings
      ensures !Truthy(fetching) && r.Ok? && hearings.items != [] ==>
                && r.value.Cards? && |r.value.cards| == |hearings.items|
                && (forall i :: 0 <= i < |hearings.items| ==>
                      r.value.cards[i] == Card(Member(hearings.items[i], "slug").value, hearings.items[i], locale))
                && (r.value.showAll <==> |hearings.items| == 4 && NumLess(Num(4.0), hearingCount))
    {
      if Truthy(fetching) {
        return Ok(Spinner);
      }
      var cards := GetHearingCards(hearings, locale);
      if cards.Err? {
        return Err(cards.error);
      }
      if |cards.value| == 0 {
        return Ok(NoHearings);
      }
      return Ok(Cards(cards.value, ShowAll(|cards.value|, hearingCount)));
    }
  }
}
