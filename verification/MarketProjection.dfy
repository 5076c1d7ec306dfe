/** project_market: which catalogue rows become listings, and which listings can be hired. */
module MarketProjection {
  import opened Values

  /** datetime.fromisoformat in seconds, None for text that does not parse or is naive; TX_HASH on str(value);
      "category in CATEGORIES". */
  datatype Tools = Tools(stamp: Json -> Option<int>, isTxHash: Json -> bool, isCategory: string -> bool)

  datatype Age = Unknown | Recent | Stale

  function Freshness(tools: Tools, timestamp: Json, now: int, ttl: int): Age {
    match tools.stamp(timestamp)
    case None => Unknown
    case Some(stamp) => if now - stamp < -5 then Unknown else if now - stamp <= ttl then Recent else Stale
  }

  /** REVIEWED: the catalogue entries whose scope has been reviewed, with their category. */
  function Reviewed(token: int, skill: string): Option<string> {
    if token == 304494 && skill == "rebalance_plan" then Some("rebalancing")
    else if token == 302258 && skill == "grid_plan" then Some("grid_trading")
    else if token == 304493 && skill == "yield_plan" then Some("yield_optimisation")
    else if token == 302257 && skill == "health_factor" then Some("health_factor_monitoring")
    else None
  }

  datatype Listing = Listing(
    token: int, skill: string, category: string, callable: bool, reviewed: bool, registered: bool, hireable: bool)

  predicate Admissible(tools: Tools, item: Json) {
    && GetOrNull(item, "token_id").Num? && GetOrNull(item, "token_id").n > 0
    && GetOrNull(item, "skill_id").Str? && GetOrNull(item, "category").Str?
    && tools.isCategory(GetOrNull(item, "category").s)
  }

  predicate Truthy(value: Json) {
    match value
    case Null => false
    case Bool(b) => b
    case Num(n) => n != 0
    case Str(s) => s != ""
    case Arr(items) => items != []
    case Obj(fields) => fields != map[]
  }

  predicate CallableNow(tools: Tools, raw: Json, item: Json, now: int) {
    && GetOrNull(item, "currently_callable") == Bool(true) && GetOrNull(raw, "endpoint_reachable") == Bool(true)
    && Freshness(tools, GetOrNull(raw, "observed_at"), now, 60).Recent? && !Truthy(GetOrNull(raw, "refresh_error"))
  }

  function ListingOf(tools: Tools, raw: Json, item: Json, now: int): (row: Listing)
    requires Admissible(tools, item)
    ensures row.token == GetOrNull(item, "token_id").n
  {
    var token, skill, category := GetOrNull(item, "token_id").n, GetOrNull(item, "skill_id").s,
        GetOrNull(item, "category").s;
    var callable := CallableNow(tools, raw, item, now);
    var reviewed := Reviewed(token, skill) == Some(category);
    var registered := tools.isTxHash(GetOrNull(item, "created_tx_hash"));
    Listing(token, skill, category, callable, reviewed, registered, callable && reviewed && registered)
  }

  /** The first admissible row of its token. */
  predicate Kept(tools: Tools, items: seq<Json>, n: nat)
    requires n < |items|
  {
    Admissible(tools, items[n])
    && forall k | 0 <= k < n && Admissible(tools, items[k]) ::
         GetOrNull(items[k], "token_id").n != GetOrNull(items[n], "token_id").n
  }

  function ListingsUpTo(tools: Tools, raw: Json, items: seq<Json>, n: nat, now: int): seq<Listing>
    requires n <= |items|
  {
    if n == 0 then []
    else ListingsUpTo(tools, raw, items, n - 1, now)
         + if Kept(tools, items, n - 1) then [ListingOf(tools, raw, items[n - 1], now)] else []
  }

  function Listings(tools: Tools, raw: Json, now: int): seq<Listing> {
    var agents := GetOrNull(raw, "agents");
    if agents.Arr? then ListingsUpTo(tools, raw, agents.items, |agents.items|, now) else []
  }

  /** The loop, before the rows are ordered for display. A missing list of agents is an empty one. */
  method ProjectMarket(tools: Tools, raw: Json, now: int) returns (rows: seq<Listing>, rejected: nat)
    requires raw.Obj? && ("agents" in raw.fields ==> raw.fields["agents"].Arr?)
    ensures rows == Listings(tools, raw, now)
    ensures |rows| + rejected == if "agents" in raw.fields then |raw.fields["agents"].items| else 0
  {
    var items := if "agents" in raw.fields then raw.fields["agents"].items else [];
    var seen: set<int> := {};
    rows, rejected := [], 0;
    for n := 0 to |items|
      invariant rows == ListingsUpTo(tools, raw, items, n, now) && |rows| + rejected == n
      invariant forall token ::
          token in seen <==> exists k | 0 <= k < n ::
              Admissible(tools, items[k]) && GetOrNull(items[k], "token_id").n == token
    {
      var item := items[n];
      if !Admissible(tools, item) {
        rejected := rejected + 1;
        assert !Kept(tools, items, n);
        continue;
      }
      var token := GetOrNull(item, "token_id").n;
      if token in seen {
        rejected := rejected + 1;
        assert !Kept(tools, items, n);
        continue;
      }
      seen := seen + {token};
      assert Kept(tools, items, n);
      rows := rows + [ListingOf(tools, raw, item, now)];
    }
  }

  lemma {:induction false} ListingsComeFromRows(tools: Tools, raw: Json, items: seq<Json>, n: nat, now: int,
                                                row: Listing)
    requires n <= |items|
    ensures row in ListingsUpTo(tools, raw, items, n, now) <==>
            exists k | 0 <= k < n :: Kept(tools, items, k) && row == ListingOf(tools, raw, items[k], now)
  {
    hide Kept, ListingOf;
    if n > 0 {
      ListingsComeFromRows(tools, raw, items, n - 1, now, row);
    }
  }

  ghost predicate DistinctTokens(rows: seq<Listing>) {
    forall i, j | 0 <= i < j < |rows| :: rows[i].token != rows[j].token
  }

  lemma ListingAppended(before: seq<Listing>, row: Listing)
    requires DistinctTokens(before) && !Offers(before, row.token)
    ensures DistinctTokens(before + [row])
    ensures forall token :: Offers(before + [row], token) <==> Offers(before, token) || token == row.token
  {
    var rows := before + [row];
    forall i | 0 <= i < |before| ensures before[i].token != row.token {
      assert before[i] in before;
    }
    assert rows[|before|] == row;
    forall token ensures Offers(rows, token) <==> Offers(before, token) || token == row.token {
      assert forall r :: r in rows <==> r in before || r == row;
    }
  }

  ghost predicate Offers(rows: seq<Listing>, token: int) {
    exists row | row in rows :: row.token == token
  }

  ghost predicate Asked(tools: Tools, items: seq<Json>, n: nat, token: int)
    requires n <= |items|
  {
    exists k | 0 <= k < n :: Admissible(tools, items[k]) && GetOrNull(items[k], "token_id").n == token
  }

  /** MAIN RESULT. There is exactly one listing for each token of an admissible row, and no other. */
  lemma {:induction false} OneListingPerToken(tools: Tools, raw: Json, items: seq<Json>, n: nat, now: int)
    requires n <= |items|
    ensures var rows := ListingsUpTo(tools, raw, items, n, now);
            DistinctTokens(rows) && forall token :: Offers(rows, token) <==> Asked(tools, items, n, token)
  {
    hide ListingOf, DistinctTokens, Offers, Asked, Kept;
    if n == 0 {
      assert DistinctTokens([]) && forall token :: !Offers([], token) && !Asked(tools, items, 0, token) by {
        NothingYet(tools, items);
      }
    } else {
      OneListingPerToken(tools, raw, items, n - 1, now);
      var before, rows := ListingsUpTo(tools, raw, items, n - 1, now), ListingsUpTo(tools, raw, items, n, now);
      KeptIffNew(tools, items, n);
      if Kept(tools, items, n - 1) {
        ListingAppended(before, ListingOf(tools, raw, items[n - 1], now));
      } else {
        assert rows == before;
      }
      forall token ensures Offers(rows, token) <==> Asked(tools, items, n, token) {
        AskedGrows(tools, items, n, token);
      }
    }
  }

  lemma NothingYet(tools: Tools, items: seq<Json>)
    ensures DistinctTokens([]) && forall token :: !Offers([], token) && !Asked(tools, items, 0, token)
  {
  }

  lemma AskedGrows(tools: Tools, items: seq<Json>, n: nat, token: int)
    requires 0 < n <= |items|
    ensures Asked(tools, items, n, token) <==>
            Asked(tools, items, n - 1, token)
            || (Admissible(tools, items[n - 1]) && GetOrNull(items[n - 1], "token_id").n == token)
  {
  }

  lemma KeptIffNew(tools: Tools, items: seq<Json>, n: nat)
    requires 0 < n <= |items|
    ensures Kept(tools, items, n - 1) <==>
            Admissible(tools, items[n - 1]) && !Asked(tools, items, n - 1, GetOrNull(items[n - 1], "token_id").n)
  {
  }

  /** MAIN RESULT. A listing can be hired only from a reachable, fresh snapshot without a refresh error, and only if its
      own row is currently callable, carries a registration transaction and has a catalogued scope. */
  lemma HireableOnlyWhenLive(tools: Tools, raw: Json, now: int, row: Listing)
    requires row in Listings(tools, raw, now) && row.hireable
    ensures GetOrNull(raw, "endpoint_reachable") == Bool(true) && !Truthy(GetOrNull(raw, "refresh_error"))
    ensures Freshness(tools, GetOrNull(raw, "observed_at"), now, 60).Recent?
    ensures Reviewed(row.token, row.skill) == Some(row.category)
    ensures GetOrNull(raw, "agents").Arr?
    ensures var items := GetOrNull(raw, "agents").items;
            exists k | 0 <= k < |items| ::
              && Kept(tools, items, k) && row == ListingOf(tools, raw, items[k], now)
              && GetOrNull(items[k], "currently_callable") == Bool(true)
              && tools.isTxHash(GetOrNull(items[k], "created_tx_hash"))
  {
    hide Freshness, Truthy, Reviewed;
    var items := GetOrNull(raw, "agents").items;
    ListingsComeFromRows(tools, raw, items, |items|, now, row);
    var k :| 0 <= k < |items| && Kept(tools, items, k) && row == ListingOf(tools, raw, items[k], now);
    hide Kept;
    assert CallableNow(tools, raw, items[k], now);
  }

  /** What Python takes for false in `not raw.get(...)`. */
  lemma FalsyIff(value: Json)
    ensures !Truthy(value)
            <==> value == Null || value == Bool(false) || value == Num(0) || value == Str("") || value == Arr([])
                 || value == Obj(map[])
  {
  }

  /** The reviewed catalogue. */
  ghost predicate Catalogued(token: int, skill: string, category: string) {
    || (token, skill, category) == (304494, "rebalance_plan", "rebalancing")
    || (token, skill, category) == (302258, "grid_plan", "grid_trading")
    || (token, skill, category) == (304493, "yield_plan", "yield_optimisation")
    || (token, skill, category) == (302257, "health_factor", "health_factor_monitoring")
  }

  /** MAIN RESULT. A listing shows its row's token, skill and category, and can be hired if and only if the row is
      currently callable, the endpoint reachable, the last refresh without error, the observation from 5 seconds
      ahead to 60 seconds old, the scope catalogued and the registration transaction there. */
  lemma HireableIff(tools: Tools, raw: Json, item: Json, now: int)
    requires Admissible(tools, item)
    ensures var row, stamp, error := ListingOf(tools, raw, item, now), tools.stamp(GetOrNull(raw, "observed_at")),
                GetOrNull(raw, "refresh_error");
            && GetOrNull(item, "token_id") == Num(row.token) && GetOrNull(item, "skill_id") == Str(row.skill)
            && GetOrNull(item, "category") == Str(row.category)
            && (row.hireable
                <==> && GetOrNull(item, "currently_callable") == Bool(true)
                     && GetOrNull(raw, "endpoint_reachable") == Bool(true)
                     && (error == Null || error == Bool(false) || error == Num(0) || error == Str("")
                         || error == Arr([]) || error == Obj(map[]))
                     && stamp.Some? && -5 <= now - stamp.value <= 60
                     && Catalogued(row.token, row.skill, row.category)
                     && tools.isTxHash(GetOrNull(item, "created_tx_hash")))
  {
    hide Truthy;
    FalsyIff(GetOrNull(raw, "refresh_error"));
  }

  /** MAIN RESULT. A listing that can be hired can be hired, from the same snapshot, exactly from 5 seconds before to 60
      seconds after its observation. */
  lemma HireWindow(tools: Tools, raw: Json, item: Json, now: int, later: int) returns (stamp: int)
    requires Admissible(tools, item) && ListingOf(tools, raw, item, now).hireable
    ensures tools.stamp(GetOrNull(raw, "observed_at")) == Some(stamp)
    ensures ListingOf(tools, raw, item, later).hireable <==> stamp - 5 <= later <= stamp + 60
  {
    hide ListingOf;
    HireableIff(tools, raw, item, now);
    HireableIff(tools, raw, item, later);
    SameRow(tools, raw, item, now, later);
    stamp := tools.stamp(GetOrNull(raw, "observed_at")).value;
  }

  lemma SameRow(tools: Tools, raw: Json, item: Json, now: int, later: int)
    requires Admissible(tools, item)
    ensures var row, same := ListingOf(tools, raw, item, now), ListingOf(tools, raw, item, later);
            (row.token, row.skill, row.category) == (same.token, same.skill, same.category)
  {
    hide CallableNow, Reviewed;
  }

  /** A row that names a positive token, a skill and a known category. */
  ghost predicate Names(tools: Tools, item: Json, token: int) {
    && token > 0 && Field(item, "token_id") == Some(Num(token))
    && (exists skill :: Field(item, "skill_id") == Some(Str(skill)))
    && exists category :: tools.isCategory(category) && Field(item, "category") == Some(Str(category))
  }

  lemma NamesIff(tools: Tools, item: Json, token: int)
    ensures Admissible(tools, item) && GetOrNull(item, "token_id").n == token <==> Names(tools, item, token)
  {
    if Admissible(tools, item) && GetOrNull(item, "token_id").n == token {
      assert Field(item, "skill_id") == Some(Str(GetOrNull(item, "skill_id").s));
      assert Field(item, "category") == Some(Str(GetOrNull(item, "category").s));
    }
  }

  /** MAIN RESULT. The market lists exactly the tokens that some row names together with a skill and a category. */
  lemma ListedTokens(tools: Tools, raw: Json, now: int, token: int)
    requires GetOrNull(raw, "agents").Arr?
    ensures Offers(Listings(tools, raw, now), token)
            <==> exists item :: item in GetOrNull(raw, "agents").items && Names(tools, item, token)
  {
    hide Offers, Names;
    var items := GetOrNull(raw, "agents").items;
    OneListingPerToken(tools, raw, items, |items|, now);
    if k :| 0 <= k < |items| && Admissible(tools, items[k]) && GetOrNull(items[k], "token_id").n == token {
      NamesIff(tools, items[k], token);
    }
    if item :| item in items && Names(tools, item, token) {
      NamesIff(tools, item, token);
      var k :| 0 <= k < |items| && items[k] == item;
    }
  }
}
