/** The decision logic of the `suggestedIntegrations` GraphQL query, from
    packages/server/graphql/queries/suggestedIntegrations.ts.

    What the resolver loads or computes through helpers not modelled here
    (the viewer's id and teams from the auth token, the user's teams, the
    team's integrations, the user-only list, the fetch-all list and the
    current time) are arguments of `Resolve`. Times are milliseconds. */
module SuggestedIntegrations {
  import opened Wrappers

  /** The fields of an `IntegrationByTeamId` the resolver reads. */
  datatype Integration = Integration(id: string, userId: string, lastUsedAt: int)

  /** `SuggestedIntegrationQueryPayload`. */
  datatype QueryPayload = QueryPayload(items: seq<Integration>, hasMore: bool)

  /** `ms('30d')`. */
  const THIRTY_DAYS_MS: int := 30 * 24 * 60 * 60 * 1000

  const NOT_ON_SAME_TEAM: string := "Not on same team as user"

  /** `authToken.tms.find(teamId => tms.includes(teamId))`: the first of the
      viewer's teams that the user is also on. */
  function FindSharedTeam(viewerTms: seq<string>, userTms: seq<string>): (r: Option<string>)
    ensures r.Some? <==> exists i :: 0 <= i < |viewerTms| && viewerTms[i] in userTms
    ensures r.Some? ==> exists i :: 0 <= i < |viewerTms| && viewerTms[i] == r.value && r.value in userTms
                                    && forall j :: 0 <= j < i ==> viewerTms[j] !in userTms
  {
    if viewerTms == [] then None
    else if viewerTms[0] in userTms then Some(viewerTms[0])
    else FindSharedTeam(viewerTms[1..], userTms)
  }

  /** The AUTH block: a viewer may ask about themself, or about a user they
      share a team with. `find` returns the team id itself, and JavaScript
      treats an empty id as not found. */
  predicate Authorized(userId: string, viewerId: string, viewerTms: seq<string>, userTms: seq<string>)
  {
    userId == viewerId || (var onTeam := FindSharedTeam(viewerTms, userTms); onTeam.Some? && onTeam.value != "")
  }

  predicate IsRecentFor(x: Integration, userId: string, now: int)
  {
    x.userId == userId && x.lastUsedAt >= now - THIRTY_DAYS_MS
  }

  /** `recentUserIntegrations`: the user's own integrations used within the
      last 30 days, in the team list's order. */
  function RecentUserIntegrations(team: seq<Integration>, userId: string, now: int): (r: seq<Integration>)
    ensures forall x :: x in r <==> x in team && IsRecentFor(x, userId, now)
    ensures |r| <= |team|
  {
    if team == [] then []
    else (if IsRecentFor(team[0], userId, now) then [team[0]] else []) + RecentUserIntegrations(team[1..], userId, now)
  }

  /** The filter works element by element: filtering a concatenation is the
      concatenation of the filtered parts, so the kept items stay in the team
      list's order, repeats included. */
  lemma {:induction false} RecentDistributesOverAppend(a: seq<Integration>, b: seq<Integration>, userId: string, now: int)
    ensures RecentUserIntegrations(a + b, userId, now)
         == RecentUserIntegrations(a, userId, now) + RecentUserIntegrations(b, userId, now)
    decreases |a|
  {
    if a == [] {
      assert a + b == b;
    } else {
      var head := if IsRecentFor(a[0], userId, now) then [a[0]] else [];
      var restA := RecentUserIntegrations(a[1..], userId, now);
      var restB := RecentUserIntegrations(b, userId, now);
      assert (a + b)[0] == a[0];
      assert (a + b)[1..] == a[1..] + b;
      RecentDistributesOverAppend(a[1..], b, userId, now);
      calc {
        RecentUserIntegrations(a + b, userId, now);
        head + RecentUserIntegrations(a[1..] + b, userId, now);
        head + (restA + restB);
        (head + restA) + restB;
      }
    }
  }

  /** The ids occurring in `s`. */
  function Ids(s: seq<Integration>): set<string>
  {
    set x | x in s :: x.id
  }

  /** No id occurs twice in `s`. */
  predicate DistinctIds(s: seq<Integration>)
  {
    forall i, j :: 0 <= i < j < |s| ==> s[i].id != s[j].id
  }

  /** The index of the first element of `s` with id `id`. */
  function FirstIndex(s: seq<Integration>, id: string): (i: nat)
    requires id in Ids(s)
    ensures i < |s| && s[i].id == id
    ensures forall j :: 0 <= j < i ==> s[j].id != id
    decreases |s|
  {
    var init := s[..|s| - 1];
    if id in Ids(init) then FirstIndex(init, id) else |s| - 1
  }

  /** Appending an element adds exactly its id. */
  lemma IdsSnoc(s: seq<Integration>, x: Integration)
    ensures Ids(s + [x]) == Ids(s) + {x.id}
  {
  }

  /** Appending an element does not move the first occurrence of an id
      already present. */
  lemma FirstIndexSnoc(s: seq<Integration>, x: Integration, id: string)
    requires id in Ids(s)
    ensures id in Ids(s + [x]) && FirstIndex(s + [x], id) == FirstIndex(s, id)
  {
  }

  /** The dedup of the resolver's `forEach` loop: keep each id's first
      occurrence, in order. The result has exactly the ids of `s`, each once. */
  function DedupById(s: seq<Integration>): (r: seq<Integration>)
    ensures Ids(r) == Ids(s)
    ensures DistinctIds(r)
    decreases |s|
  {
    if s == [] then []
    else
      var init := s[..|s| - 1];
      var last := s[|s| - 1];
      var kept := DedupById(init);
      assert s == init + [last];
      IdsSnoc(init, last);
      IdsSnoc(kept, last);
      if last.id in Ids(init) then kept
      else
        assert forall k :: 0 <= k < |kept| ==> kept[k] in kept;
        kept + [last]
  }

  /** Unfolding `DedupById` on a non-empty sequence. */
  lemma DedupByIdSnoc(s: seq<Integration>)
    requires s != []
    ensures DedupById(s) == if s[|s| - 1].id in Ids(s[..|s| - 1]) then DedupById(s[..|s| - 1])
                           else DedupById(s[..|s| - 1]) + [s[|s| - 1]]
  {
  }

  /** Every element the dedup keeps is the first occurrence of its id. */
  lemma {:induction false} DedupKeepsFirstOccurrences(s: seq<Integration>)
    ensures forall k :: 0 <= k < |DedupById(s)| ==>
      DedupById(s)[k].id in Ids(s) && DedupById(s)[k] == s[FirstIndex(s, DedupById(s)[k].id)]
    decreases |s|
  {
    if s != [] {
      var init := s[..|s| - 1];
      var last := s[|s| - 1];
      assert s == init + [last];
      DedupKeepsFirstOccurrences(init);
      DedupByIdSnoc(s);
      var kept := DedupById(init);
      forall k | 0 <= k < |kept| ensures kept[k].id in Ids(s) && kept[k] == s[FirstIndex(s, kept[k].id)] {
        FirstIndexSnoc(init, last, kept[k].id);
      }
      if last.id !in Ids(init) {
        IdsSnoc(init, last);
        assert FirstIndex(s, last.id) == |s| - 1;
      }
    }
  }

  /** The dedup keeps the first occurrences in the order they occur in `s`. */
  lemma {:induction false} DedupKeepsOrder(s: seq<Integration>)
    ensures forall k :: 0 <= k < |DedupById(s)| ==> DedupById(s)[k].id in Ids(s)
    ensures forall k1, k2 :: 0 <= k1 < k2 < |DedupById(s)| ==>
      FirstIndex(s, DedupById(s)[k1].id) < FirstIndex(s, DedupById(s)[k2].id)
    decreases |s|
  {
    if s != [] {
      var init := s[..|s| - 1];
      var last := s[|s| - 1];
      assert s == init + [last];
      DedupKeepsOrder(init);
      DedupByIdSnoc(s);
      var kept := DedupById(init);
      forall k | 0 <= k < |kept| ensures kept[k].id in Ids(s) && FirstIndex(s, kept[k].id) == FirstIndex(init, kept[k].id) {
        FirstIndexSnoc(init, last, kept[k].id);
      }
      if last.id !in Ids(init) {
        IdsSnoc(init, last);
        assert FirstIndex(s, last.id) == |s| - 1;
      }
    }
  }

  /** Deduplicating a list without repeated ids returns it unchanged, so the
      dedup is idempotent. */
  lemma {:induction false} DedupOfDistinctIsIdentity(s: seq<Integration>)
    requires DistinctIds(s)
    ensures DedupById(s) == s
    decreases |s|
  {
    if s != [] {
      var init := s[..|s| - 1];
      var last := s[|s| - 1];
      assert DistinctIds(init);
      DedupOfDistinctIsIdentity(init);
      DedupByIdSnoc(s);
      forall x | x in init ensures x.id != last.id {
        var j :| 0 <= j < |init| && init[j] == x;
        assert s[j] == x;
      }
      assert s == init + [last];
    }
  }

  lemma DedupIdempotent(s: seq<Integration>)
    ensures DedupById(DedupById(s)) == DedupById(s)
  {
    DedupOfDistinctIsIdentity(DedupById(s));
  }

  /** The `forEach` loop over `userAndTeamItems`, with its `idSet`. */
  method DedupTeamIntegrations(items: seq<Integration>) returns (deduped: seq<Integration>)
    ensures deduped == DedupById(items)
  {
    var idSet: set<string> := {};
    deduped := [];
    var i := 0;
    while i < |items|
      invariant 0 <= i <= |items|
      invariant idSet == Ids(items[..i])
      invariant deduped == DedupById(items[..i])
    {
      var integration := items[i];
      assert items[..i + 1][..i] == items[..i];
      assert Ids(items[..i + 1]) == idSet + {integration.id} by {
        assert items[..i + 1] == items[..i] + [integration];
      }
      if integration.id !in idSet {
        idSet := idSet + {integration.id};
        deduped := deduped + [integration];
      }
      i := i + 1;
    }
    assert items[..i] == items;
  }

  /** The recent items are drawn from the team list, so putting them in
      front adds no id. */
  lemma RecentAddsNoIds(team: seq<Integration>, userId: string, now: int)
    ensures Ids(RecentUserIntegrations(team, userId, now) + team) == Ids(team)
  {
  }

  /** The `userAndTeamItems.length === 0` fallback is dead code: the list
      it tests contains the whole team list, which is not empty when the
      resolver reaches it. What the resolver returns instead, the
      deduplicated recent-then-team list, is never empty either. */
  lemma FallbackUnreachable(team: seq<Integration>, userId: string, now: int)
    requires team != []
    ensures DedupById(RecentUserIntegrations(team, userId, now) + team) != []
  {
    RecentAddsNoIds(team, userId, now);
    assert team[0].id in Ids(team);
  }

  /** The `resolve` function of the query. */
  method Resolve(userId: string, viewerId: string, viewerTms: seq<string>, userTms: seq<string>,
                 teamIntegrations: seq<Integration>, userOnly: Option<seq<Integration>>,
                 fetchAll: seq<Integration>, now: int)
    returns (r: Result<QueryPayload, string>)
    ensures r.Failure? <==> !Authorized(userId, viewerId, viewerTms, userTms)
    ensures r.Failure? ==> r.error == NOT_ON_SAME_TEAM
    ensures r.Success? && teamIntegrations == [] ==> r.value == QueryPayload(fetchAll, false)
    ensures r.Success? && teamIntegrations != [] && userOnly.Some? ==> r.value == QueryPayload(userOnly.value, true)
    ensures r.Success? && teamIntegrations != [] && userOnly.None? ==>
      && r.value == QueryPayload(DedupById(RecentUserIntegrations(teamIntegrations, userId, now) + teamIntegrations), true)
      && Ids(r.value.items) == Ids(teamIntegrations)
      && DistinctIds(r.value.items)
      && r.value.items != []
  {
    if userId != viewerId {
      var onTeam := FindSharedTeam(viewerTms, userTms);
      if onTeam.None? || onTeam.value == "" {
        return Failure(NOT_ON_SAME_TEAM);
      }
    }
    if |teamIntegrations| == 0 {
      return Success(QueryPayload(fetchAll, false));
    }
    if userOnly.Some? {
      return Success(QueryPayload(userOnly.value, true));
    }
    var recentUserIntegrations := RecentUserIntegrations(teamIntegrations, userId, now);
    var userAndTeamItems := recentUserIntegrations + teamIntegrations;
    var dedupedTeamIntegrations := DedupTeamIntegrations(userAndTeamItems);
    RecentAddsNoIds(teamIntegrations, userId, now);
    FallbackUnreachable(teamIntegrations, userId, now);
    if |userAndTeamItems| == 0 {
      return Success(QueryPayload(fetchAll, false));
    }
    return Success(QueryPayload(dedupedTeamIntegrations, true));
  }
}
