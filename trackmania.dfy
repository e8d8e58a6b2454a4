/**
 * The roster side of the bot (src/trackmania.ts): the Twitch names of the
 * members of one or more trackmania.io clubs, fetched page by page.
 *
 * The HTTP client is not called. What `get` would answer for the pages
 * of an endpoint is the parameter `pages`: `pages[p]` is the response to
 * page `p`, and a page past the end of `pages` is a request that fails
 * (the promise the source awaits rejects), which makes the whole fetch
 * fail. The responses of several endpoints are the map `server`.
 */
module Roster {
  import opened Wrappers
  import opened Strings

  /** `player.meta`: the Twitch name is optional. */
  datatype Meta = Meta(twitch: Option<string>)
  /** A club member's player record; `meta` is optional. */
  datatype Player = Player(meta: Option<Meta>)
  datatype Member = Member(player: Player)

  /** One page of a paged endpoint: `page_max` and the arrays keyed by name. */
  datatype Response = Response(pageMax: int, lists: map<string, seq<Member>>)

  /** The argument of `getTwitchUsersByClub`: one club id or a list of them. */
  datatype ClubIds = One(clubId: string) | Many(clubIds: seq<string>)

  /** The pages requested, in order, and the merged data, or None when a request failed. */
  datatype Fetched = Fetched(requested: seq<nat>, data: Option<seq<Member>>)

  // ---------------------------------------------------------------------
  // Paged fetch

  /** A response whose data the loop takes: it exists, `page_max` is not 0 and it has the key. */
  predicate Accepted(pages: seq<Response>, key: string, q: nat)
  {
    q < |pages| && pages[q].pageMax != 0 && key in pages[q].lists
  }

  /** An accepted page after which the loop asks for the next one. */
  predicate Continues(pages: seq<Response>, key: string, q: nat)
  {
    Accepted(pages, key, q) && q + 1 < pages[q].pageMax
  }

  /** The arrays of pages `lo` to `hi - 1`, concatenated in page order. */
  function Gather(pages: seq<Response>, key: string, lo: nat, hi: nat): seq<Member>
    requires lo <= hi <= |pages|
    requires forall q :: lo <= q < hi ==> Accepted(pages, key, q)
    decreases hi - lo
  {
    if lo == hi then []
    else
      assert Accepted(pages, key, lo);
      pages[lo].lists[key] + Gather(pages, key, lo + 1, hi)
  }

  /** `fetchAll` from page `p` on: the pages it requests and the data it merges. */
  function FetchFrom(pages: seq<Response>, key: string, p: nat): Fetched
    decreases |pages| - p
  {
    if p >= |pages| then Fetched([p], None)
    else if pages[p].pageMax == 0 || key !in pages[p].lists then Fetched([p], Some([]))
    else if p + 1 < pages[p].pageMax then
      var rest := FetchFrom(pages, key, p + 1);
      Fetched([p] + rest.requested,
              if rest.data.Some? then Some(pages[p].lists[key] + rest.data.value) else None)
    else
      Fetched([p], Some(pages[p].lists[key]))
  }

  /**
   * The pages requested from `p` on are `p`, `p + 1`, … in increasing
   * order; every page but the last is accepted and announces a further
   * page; the fetch fails exactly when the last request is past the
   * available pages; otherwise the last page stops the loop (rejected, or
   * no further page announced) and the data is the concatenation of the
   * accepted pages' arrays.
   */
  lemma {:induction false} FetchFromPages(pages: seq<Response>, key: string, p: nat)
    ensures var r := FetchFrom(pages, key, p);
            && |r.requested| >= 1
            && (forall k :: 0 <= k < |r.requested| ==> r.requested[k] == p + k)
            && (forall q :: p <= q < p + |r.requested| - 1 ==> Continues(pages, key, q))
            && (r.data.None? <==> p + |r.requested| - 1 >= |pages|)
    decreases |pages| - p
  {
    if p < |pages| && pages[p].pageMax != 0 && key in pages[p].lists && p + 1 < pages[p].pageMax {
      FetchFromPages(pages, key, p + 1);
    }
  }

  /** Where the fetch from `p` succeeds, its last page stops the loop and its data is the accepted pages' arrays in order. */
  lemma {:induction false} FetchFromData(pages: seq<Response>, key: string, p: nat)
    ensures var r := FetchFrom(pages, key, p);
            var last := p + |r.requested| - 1;
            r.data.Some? ==>
              && p <= last < |pages|
              && !Continues(pages, key, last)
              && (forall q :: p <= q < last ==> Accepted(pages, key, q))
              && r.data.value == Gather(pages, key, p, if Accepted(pages, key, last) then last + 1 else last)
    decreases |pages| - p
  {
    FetchFromPages(pages, key, p);
    if p < |pages| && pages[p].pageMax != 0 && key in pages[p].lists {
      if p + 1 < pages[p].pageMax {
        FetchFromData(pages, key, p + 1);
      } else {
        assert Gather(pages, key, p + 1, p + 1) == [];
      }
    }
  }

  /** Prefixing the requests and data already gathered to a fetch from a later page. */
  function Glue(requested: seq<nat>, gathered: seq<Member>, rest: Fetched): Fetched
  {
    Fetched(requested + rest.requested, if rest.data.Some? then Some(gathered + rest.data.value) else None)
  }

  /** One accepted page that announces a further one moves its request and its array into the prefix. */
  lemma GlueContinue(requested: seq<nat>, gathered: seq<Member>, pages: seq<Response>, key: string, p: nat)
    requires Continues(pages, key, p)
    ensures Glue(requested, gathered, FetchFrom(pages, key, p))
         == Glue(requested + [p], gathered + pages[p].lists[key], FetchFrom(pages, key, p + 1))
  {
    var rest := FetchFrom(pages, key, p + 1);
    assert requested + ([p] + rest.requested) == (requested + [p]) + rest.requested;
    if rest.data.Some? {
      assert gathered + (pages[p].lists[key] + rest.data.value) == (gathered + pages[p].lists[key]) + rest.data.value;
    }
  }

  /** `fetchAll(endpoint)`: the data is read under the endpoint's last path segment. */
  method FetchAll(endpoint: string, pages: seq<Response>) returns (data: Option<seq<Member>>, requested: seq<nat>)
    ensures Fetched(requested, data) == FetchFrom(pages, LastSegment(endpoint), 0)
  {
    var endpointFragments := Split(endpoint, '/');
    var relevantData := endpointFragments[|endpointFragments| - 1];
    ghost var whole := FetchFrom(pages, relevantData, 0);
    var actualPage := 0;
    var maxPage := 0;
    var cumulatedData: seq<Member> := [];
    requested := [];
    assert Glue(requested, cumulatedData, whole) == whole by {
      assert [] + whole.requested == whole.requested;
      if whole.data.Some? {
        assert [] + whole.data.value == whole.data.value;
      }
    }
    while true
      invariant whole == Glue(requested, cumulatedData, FetchFrom(pages, relevantData, actualPage))
      decreases |pages| - actualPage
    {
      ghost var prefix, gathered := requested, cumulatedData;
      requested := requested + [actualPage];
      if actualPage >= |pages| {
        return None, requested;
      }
      var response := pages[actualPage];
      if response.pageMax == 0 || relevantData !in response.lists {
        assert cumulatedData + [] == cumulatedData;
        break;
      }
      cumulatedData := cumulatedData + response.lists[relevantData];
      maxPage := response.pageMax;
      actualPage := actualPage + 1;
      if !(actualPage < maxPage) {
        break;
      }
      GlueContinue(prefix, gathered, pages, relevantData, actualPage - 1);
    }
    data := Some(cumulatedData);
  }

  /** The data key of a club's member list is "members", whatever the club id. */
  lemma ClubKey(clubId: string)
    ensures LastSegment(ClubEndpoint(clubId)) == "members"
  {
    assert ClubEndpoint(clubId) == ("club/" + clubId) + ['/'] + "members";
    LastSegmentAfter("club/" + clubId, "members");
  }

  // ---------------------------------------------------------------------
  // Twitch names of club members

  /** `club/<id>/members`, the endpoint `getClubMembers` fetches. */
  function ClubEndpoint(clubId: string): string
  {
    "club/" + clubId + "/members"
  }

  /** The responses `server` holds for an endpoint; an endpoint it does not know answers no page. */
  function PagesOf(server: map<string, seq<Response>>, endpoint: string): seq<Response>
  {
    if endpoint in server then server[endpoint] else []
  }

  /** `getClubMembers(clubId)`: all members of one club, or None when a request failed. */
  function ClubMembers(server: map<string, seq<Response>>, clubId: string): Option<seq<Member>>
  {
    FetchFrom(PagesOf(server, ClubEndpoint(clubId)), "members", 0).data
  }

  /** The member's Twitch name, when both `player.meta` and `meta.twitch` are set. */
  function TwitchName(member: Member): Option<string>
  {
    if member.player.meta.Some? then member.player.meta.value.twitch else None
  }

  /** The Twitch names of a list of members, as a set. */
  function NamesOf(members: seq<Member>): set<string>
    decreases |members|
  {
    if members == [] then {}
    else
      var last := members[|members| - 1];
      NamesOf(members[..|members| - 1]) + (if TwitchName(last).Some? then {TwitchName(last).value} else {})
  }

  /** A name is collected exactly when some member carries it. */
  lemma {:induction false} NamesOfExactly(members: seq<Member>, name: string)
    ensures name in NamesOf(members) <==> Carries(members, name)
    decreases |members|
  {
    if members != [] {
      var init := members[..|members| - 1];
      NamesOfExactly(init, name);
      if exists k :: 0 <= k < |members| && TwitchName(members[k]) == Some(name) {
        var k :| 0 <= k < |members| && TwitchName(members[k]) == Some(name);
        if k < |init| {
          assert init[k] == members[k];
        }
      }
      if exists k :: 0 <= k < |init| && TwitchName(init[k]) == Some(name) {
        var k :| 0 <= k < |init| && TwitchName(init[k]) == Some(name);
        assert members[k] == init[k];
      }
    }
  }

  /** The club list a call works on: a single id is a one-element list. */
  function IdList(clubIds: ClubIds): seq<string>
  {
    if clubIds.One? then [clubIds.clubId] else clubIds.clubIds
  }

  /** The names of the members of the clubs `ids`, or None when any fetch failed. */
  function ClubsNames(server: map<string, seq<Response>>, ids: seq<string>): Option<set<string>>
    decreases |ids|
  {
    if ids == [] then Some({})
    else
      var prev := ClubsNames(server, ids[..|ids| - 1]);
      var members := ClubMembers(server, ids[|ids| - 1]);
      if prev.None? || members.None? then None else Some(prev.value + NamesOf(members.value))
  }

  /** A failure in the first `i` clubs is a failure of the whole call. */
  lemma {:induction false} ClubsNamesFailure(server: map<string, seq<Response>>, ids: seq<string>, i: nat)
    requires i <= |ids| && ClubsNames(server, ids[..i]).None?
    ensures ClubsNames(server, ids).None?
    decreases |ids|
  {
    if i < |ids| {
      var init := ids[..|ids| - 1];
      assert init[..i] == ids[..i];
      ClubsNamesFailure(server, init, i);
    } else {
      assert ids[..i] == ids;
    }
  }

  /** The call succeeds exactly when every club's fetch succeeds. */
  lemma {:induction false} ClubsNamesSucceeds(server: map<string, seq<Response>>, ids: seq<string>)
    ensures ClubsNames(server, ids).Some? <==> forall i :: 0 <= i < |ids| ==> ClubMembers(server, ids[i]).Some?
    decreases |ids|
  {
    if ids != [] {
      var init := ids[..|ids| - 1];
      var j := |ids| - 1;
      ClubsNamesSucceeds(server, init);
      if forall i :: 0 <= i < |ids| ==> ClubMembers(server, ids[i]).Some? {
        forall i | 0 <= i < |init| ensures ClubMembers(server, init[i]).Some? {
          assert init[i] == ids[i];
        }
      }
      if ClubsNames(server, ids).Some? {
        forall i | 0 <= i < |ids| ensures ClubMembers(server, ids[i]).Some? {
          if i < j {
            assert init[i] == ids[i];
          }
        }
      }
    }
  }

  /** Some member of the list carries the Twitch name `name`. */
  predicate Carries(members: seq<Member>, name: string)
  {
    exists k :: 0 <= k < |members| && TwitchName(members[k]) == Some(name)
  }

  /** Some club of `ids` has a member carrying `name`. */
  predicate AnyCarries(server: map<string, seq<Response>>, ids: seq<string>, name: string)
  {
    exists i :: 0 <= i < |ids| && ClubMembers(server, ids[i]).Some? && Carries(ClubMembers(server, ids[i]).value, name)
  }

  /**
   * When the call succeeds, a name is in the result exactly when a member
   * of one of the clubs carries it; repeated names appear once.
   */
  lemma ClubsNamesExactly(server: map<string, seq<Response>>, ids: seq<string>, name: string)
    ensures ClubsNames(server, ids).Some? ==> (name in ClubsNames(server, ids).value <==> AnyCarries(server, ids, name))
  {
    if ClubsNames(server, ids).Some? {
      if name in ClubsNames(server, ids).value {
        ClubsNamesSound(server, ids, name);
      }
      if AnyCarries(server, ids, name) {
        ClubsNamesComplete(server, ids, name);
      }
    }
  }

  lemma {:induction false} ClubsNamesSound(server: map<string, seq<Response>>, ids: seq<string>, name: string)
    requires ClubsNames(server, ids).Some? && name in ClubsNames(server, ids).value
    ensures AnyCarries(server, ids, name)
    decreases |ids|
  {
    var init := ids[..|ids| - 1];
    var j := |ids| - 1;
    if name in ClubsNames(server, init).value {
      ClubsNamesSound(server, init, name);
      var i :| 0 <= i < |init| && ClubMembers(server, init[i]).Some? && Carries(ClubMembers(server, init[i]).value, name);
      assert ids[i] == init[i];
    } else {
      NamesOfExactly(ClubMembers(server, ids[j]).value, name);
    }
  }

  lemma {:induction false} ClubsNamesComplete(server: map<string, seq<Response>>, ids: seq<string>, name: string)
    requires ClubsNames(server, ids).Some? && AnyCarries(server, ids, name)
    ensures name in ClubsNames(server, ids).value
    decreases |ids|
  {
    var init := ids[..|ids| - 1];
    var j := |ids| - 1;
    var i :| 0 <= i < |ids| && ClubMembers(server, ids[i]).Some? && Carries(ClubMembers(server, ids[i]).value, name);
    if i < j {
      assert init[i] == ids[i];
      ClubsNamesComplete(server, init, name);
    } else {
      NamesOfExactly(ClubMembers(server, ids[j]).value, name);
    }
  }

  /** A single club id gives the same result as the list holding only that id. */
  lemma OneIsList(server: map<string, seq<Response>>, clubId: string)
    ensures ClubsNames(server, IdList(One(clubId))) == ClubsNames(server, IdList(Many([clubId])))
    ensures ClubsNames(server, IdList(One(clubId))) ==
              if ClubMembers(server, clubId).Some? then Some(NamesOf(ClubMembers(server, clubId).value)) else None
  {
    assert [clubId][..0] == [];
    if ClubMembers(server, clubId).Some? {
      assert {} + NamesOf(ClubMembers(server, clubId).value) == NamesOf(ClubMembers(server, clubId).value);
    }
  }

  /** The inner loop of `getTwitchUsersByClub`: add each member's Twitch name, when set, to the names so far. */
  method AddTwitchNames(twitchUsers: set<string>, members: seq<Member>) returns (names: set<string>)
    ensures names == twitchUsers + NamesOf(members)
  {
    names := twitchUsers;
    for j := 0 to |members|
      invariant names == twitchUsers + NamesOf(members[..j])
    {
      var member := members[j];
      assert members[..j + 1][..j] == members[..j];
      if member.player.meta.Some? && member.player.meta.value.twitch.Some? {
        names := names + {member.player.meta.value.twitch.value};
      }
    }
    assert members[..|members|] == members;
  }

  /** One more club: its members' names join the set, or its failed fetch fails the call. */
  lemma ClubsNamesStep(server: map<string, seq<Response>>, ids: seq<string>, i: nat, names: set<string>)
    requires i < |ids| && ClubsNames(server, ids[..i]) == Some(names)
    ensures ClubsNames(server, ids[..i + 1])
         == if ClubMembers(server, ids[i]).None? then None else Some(names + NamesOf(ClubMembers(server, ids[i]).value))
  {
    assert ids[..i + 1][..i] == ids[..i];
  }

  /** `getTwitchUsersByClub(clubIds)`: the set of Twitch names over all members of all clubs. */
  method GetTwitchUsersByClub(clubIds: ClubIds, server: map<string, seq<Response>>) returns (twitchUsers: Option<set<string>>)
    ensures twitchUsers == ClubsNames(server, IdList(clubIds))
  {
    var ids := IdList(clubIds);
    var names: set<string> := {};
    for i := 0 to |ids|
      invariant ClubsNames(server, ids[..i]) == Some(names)
    {
      var endpoint := ClubEndpoint(ids[i]);
      var members, _ := FetchAll(endpoint, PagesOf(server, endpoint));
      ClubKey(ids[i]);
      assert members == ClubMembers(server, ids[i]);
      ClubsNamesStep(server, ids, i, names);
      if members.None? {
        ClubsNamesFailure(server, ids, i + 1);
        return None;
      }
      names := AddTwitchNames(names, members.value);
    }
    assert ids[..|ids|] == ids;
    twitchUsers := Some(names);
  }
}
