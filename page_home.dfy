/** The view-model behind the home page (src/pages/page_home.rs): the
    searchable team list and the activity feed. Widget construction is not
    modelled; each row or entry records what it shows and the intents it
    emits. */
module PageHome {
  import opened Wrappers
  import opened Api
  import opened Text
  import opened Seqs

  /** Right padding that stands in for the scrollbar when no team is listed. */
  const EmptyListPadding: nat := 18

  /** Prefix of the positional expansion key, spelled as the home page spells it. */
  const ExpansionKeyPrefix: string := "expandend_activity_"

  const FailedText: string := "Failed to load conversation."

  // ---------------------------------------------------------------- teams

  /** A team is listed when its lower-cased name starts with the lower-cased search text. */
  predicate Matches(t: Team, search: string)
    ensures search == "" ==> Matches(t, search)
  {
    Lower(search) <= Lower(t.displayName)
  }

  /** The teams that pass the search filter, in input order. */
  function MatchingTeams(teams: seq<Team>, search: string): (r: seq<Team>)
    ensures |r| <= |teams|
  {
    if teams == [] then []
    else
      var n := |teams| - 1;
      MatchingTeams(teams[..n], search) + (if Matches(teams[n], search) then [teams[n]] else [])
  }

  /** One row of the team list. */
  datatype TeamRow = TeamRow(
    team: Team,
    imageKey: string,
    onFetchImage: Intent,
    onPress: Intent,
    onEnter: Intent)

  /** The team-list loop: one row per matching team, in input order, and
      the flag recording that no team matched. */
  method TeamRows(teams: seq<Team>, searchTeamsInputValue: string)
    returns (rows: seq<TeamRow>, teamsListEmpty: bool)
    ensures |rows| == |MatchingTeams(teams, searchTeamsInputValue)|
    ensures forall k :: 0 <= k < |rows| ==> rows[k].team == MatchingTeams(teams, searchTeamsInputValue)[k]
    ensures forall row :: row in rows ==>
      && row.imageKey == ImageKey(row.team)
      && row.onFetchImage == FetchTeamImage(ImageKey(row.team), row.team.pictureETag.GetOr(""),
                                            row.team.teamSiteInformation.groupId, row.team.displayName)
      && row.onPress == OpenTeam(row.team.id, row.team.id)
      && row.onEnter == PrefetchTeam(row.team.id, row.team.id)
    ensures teamsListEmpty <==> rows == []
    ensures teamsListEmpty <==> forall j :: 0 <= j < |teams| ==> !Matches(teams[j], searchTeamsInputValue)
  {
    rows := [];
    teamsListEmpty := true;
    for i := 0 to |teams|
      invariant |rows| == |MatchingTeams(teams[..i], searchTeamsInputValue)|
      invariant forall k :: 0 <= k < |rows| ==> rows[k].team == MatchingTeams(teams[..i], searchTeamsInputValue)[k]
      invariant forall row :: row in rows ==>
        && row.imageKey == ImageKey(row.team)
        && row.onFetchImage == FetchTeamImage(ImageKey(row.team), row.team.pictureETag.GetOr(""),
                                              row.team.teamSiteInformation.groupId, row.team.displayName)
        && row.onPress == OpenTeam(row.team.id, row.team.id)
        && row.onEnter == PrefetchTeam(row.team.id, row.team.id)
      invariant teamsListEmpty <==> rows == []
      invariant teamsListEmpty <==> forall j :: 0 <= j < i ==> !Matches(teams[j], searchTeamsInputValue)
    {
      assert teams[..i + 1][..i] == teams[..i];
      var team := teams[i];
      if !Matches(team, searchTeamsInputValue) {
        continue;
      }
      teamsListEmpty := false;
      var key := ImageKey(team);
      var fetch := FetchTeamImage(key, team.pictureETag.GetOr(""), team.teamSiteInformation.groupId, team.displayName);
      rows := rows + [TeamRow(team, key, fetch, OpenTeam(team.id, team.id), PrefetchTeam(team.id, team.id))];
    }
    assert teams[..|teams|] == teams;
  }

  lemma {:induction false} MatchingTeamsMembers(teams: seq<Team>, search: string, t: Team)
    ensures t in MatchingTeams(teams, search) <==> t in teams && Matches(t, search)
  {
    if teams != [] {
      var n := |teams| - 1;
      MatchingTeamsMembers(teams[..n], search, t);
      assert teams == teams[..n] + [teams[n]];
    }
  }

  /** Filtering distributes over concatenation: it keeps teams in input order. */
  lemma {:induction false} MatchingTeamsAppend(a: seq<Team>, b: seq<Team>, search: string)
    ensures MatchingTeams(a + b, search) == MatchingTeams(a, search) + MatchingTeams(b, search)
  {
    if b == [] {
      assert a + b == a;
    } else {
      var n := |b| - 1;
      MatchingTeamsAppend(a, b[..n], search);
      assert (a + b)[..|a + b| - 1] == a + b[..n];
    }
  }

  /** An empty search text lists every team, unchanged and in order. */
  lemma {:induction false} MatchingTeamsEmptySearch(teams: seq<Team>)
    ensures MatchingTeams(teams, "") == teams
  {
    if teams != [] {
      var n := |teams| - 1;
      MatchingTeamsEmptySearch(teams[..n]);
      assert Lower("") == [];
      assert teams == teams[..n] + [teams[n]];
    }
  }

  /** The filter ignores the case of the search text. */
  lemma {:induction false} MatchingTeamsIgnoresCase(teams: seq<Team>, search: string)
    ensures MatchingTeams(teams, Lower(search)) == MatchingTeams(teams, search)
  {
    if teams != [] {
      MatchingTeamsIgnoresCase(teams[..|teams| - 1], search);
      LowerIdempotent(search);
    }
  }

  // ---------------------------------------------------------------- feed

  /** The key under which the expansion of the feed item at position `i`
      (counted in display order) is stored: the prefix, then the position. */
  function ExpansionKey(i: nat): (key: string)
    ensures |key| > |ExpansionKeyPrefix|
    ensures key[..|ExpansionKeyPrefix|] == ExpansionKeyPrefix
  {
    ExpansionKeyPrefix + NatToString(i)
  }

  /** The position can be read back from the key: what follows the prefix
      is the position in decimal. */
  lemma ExpansionKeyRoundTrip(i: nat)
    ensures |ExpansionKey(i)| > |ExpansionKeyPrefix|
    ensures ParseNat(ExpansionKey(i)[|ExpansionKeyPrefix|..]) == i
  {
    assert ExpansionKey(i)[|ExpansionKeyPrefix|..] == NatToString(i);
    ParseNatToString(i);
  }

  lemma ExpansionKeyInjective(i: nat, j: nat)
    ensures ExpansionKey(i) == ExpansionKey(j) <==> i == j
  {
    ExpansionKeyRoundTrip(i);
    ExpansionKeyRoundTrip(j);
  }

  /** The id that groups an activity's conversation: its reply chain when it has one. */
  function GroupingId(a: Activity): (g: string)
    ensures g == a.sourceMessageId || a.sourceReplyChainId == Some(g)
    ensures a.sourceReplyChainId.Some? ==> g == a.sourceReplyChainId.value
  {
    a.sourceReplyChainId.GetOr(a.sourceMessageId)
  }

  /** A rendered feed entry and the intent it emits on release. */
  datatype FeedEntry =
    | Preview(activity: Activity, onRelease: Intent)
    | Failed(text: string, onRelease: Intent)
    | Loaded(conversation: Conversation, onRelease: Intent)

  /** What the feed shows for activity `a` at position `i`; None when the
      conversation renderer (`renders`) yields no widget. */
  function Slot(a: Activity, i: nat, expanded: map<string, seq<ApiMessage>>, renders: Conversation -> bool)
    : (r: Option<FeedEntry>)
    ensures r.Some? ==> r.value.onRelease == ExpandActivity(a.sourceThreadId, GroupingId(a), ExpansionKey(i))
    ensures r.Some? ==> (r.value.Preview? <==> ExpansionKey(i) !in expanded)
    ensures r.Some? && r.value.Preview? ==> r.value.activity == a
    ensures r.Some? ==> (r.value.Failed? <==> ExpansionKey(i) in expanded && expanded[ExpansionKey(i)] == [])
    ensures r.Some? && r.value.Failed? ==> r.value.text == FailedText
    ensures r.Some? && r.value.Loaded? ==>
      && ExpansionKey(i) in expanded
      && r.value.conversation.messages == expanded[ExpansionKey(i)] != []
      && r.value.conversation.id == ExpansionKey(i)
      && r.value.conversation.containerId == ""
      && r.value.conversation.latestDeliveryTime == ""
    ensures r.None? <==>
      ExpansionKey(i) in expanded && expanded[ExpansionKey(i)] != []
      && !renders(Conversation(ExpansionKey(i), "", "", expanded[ExpansionKey(i)]))
  {
    var key := ExpansionKey(i);
    var intent := ExpandActivity(a.sourceThreadId, GroupingId(a), key);
    if key in expanded then
      var value := expanded[key];
      if |value| > 0 then
        var conversation := Conversation(key, "", "", value);
        if renders(conversation) then Some(Loaded(conversation, intent)) else None
      else
        Some(Failed(FailedText, intent))
    else
      Some(Preview(a, intent))
  }

  function SlotOf(ordered: seq<ApiMessage>, i: nat, expanded: map<string, seq<ApiMessage>>, renders: Conversation -> bool)
    : Option<FeedEntry>
    requires AllHaveActivity(ordered) && i < |ordered|
  {
    Slot(ActivityOf(ordered[i]), i, expanded, renders)
  }

  /** The slot of every position of `ordered`. */
  function Slots(ordered: seq<ApiMessage>, expanded: map<string, seq<ApiMessage>>, renders: Conversation -> bool)
    : (r: seq<Option<FeedEntry>>)
    requires AllHaveActivity(ordered)
    ensures |r| == |ordered|
    ensures forall i :: 0 <= i < |ordered| ==> r[i] == SlotOf(ordered, i, expanded, renders)
  {
    seq(|ordered|, i requires 0 <= i < |ordered| => SlotOf(ordered, i, expanded, renders))
  }

  /** The feed column for messages already in display order (the stream reversed). */
  function Feed(ordered: seq<ApiMessage>, expanded: map<string, seq<ApiMessage>>, renders: Conversation -> bool)
    : (feed: seq<FeedEntry>)
    requires AllHaveActivity(ordered)
    ensures |feed| <= |ordered|
  {
    Present(Slots(ordered, expanded, renders))
  }

  /** The positions of `ordered` that produced an entry of the feed. */
  function FeedPositions(ordered: seq<ApiMessage>, expanded: map<string, seq<ApiMessage>>, renders: Conversation -> bool)
    : seq<nat>
    requires AllHaveActivity(ordered)
  {
    PresentPositions(Slots(ordered, expanded, renders))
  }

  /** The activity loop: walks the stream in reverse with a counter that
      advances once per activity, whatever the entry. */
  method AssembleFeed(activities: seq<ApiMessage>, expanded: map<string, seq<ApiMessage>>, renders: Conversation -> bool)
    returns (entries: seq<FeedEntry>, messageOrder: nat)
    requires AllHaveActivity(activities)
    ensures AllHaveActivity(Reverse(activities))
    ensures entries == Feed(Reverse(activities), expanded, renders)
    ensures messageOrder == |activities|
  {
    var ordered := Reverse(activities);
    ReverseAt(activities);
    assert AllHaveActivity(ordered) by {
      forall k | 0 <= k < |ordered| ensures HasActivity(ordered[k]) {
        assert ordered[k] == activities[|activities| - 1 - k];
      }
    }
    ghost var slots := Slots(ordered, expanded, renders);
    entries := [];
    messageOrder := 0;
    for i := 0 to |ordered|
      invariant messageOrder == i
      invariant entries == Present(slots[..i])
    {
      assert slots[..i + 1][..i] == slots[..i];
      assert slots[i] == SlotOf(ordered, i, expanded, renders);
      var activity := ActivityOf(ordered[i]);
      var threadId := activity.sourceThreadId;
      var messageId := GroupingId(activity);
      var key := ExpansionKey(messageOrder);
      var intent := ExpandActivity(threadId, messageId, key);
      if key in expanded {
        var value := expanded[key];
        if |value| > 0 {
          var conversation := Conversation(key, "", "", value);
          if renders(conversation) {
            entries := entries + [Loaded(conversation, intent)];
          }
        } else {
          entries := entries + [Failed(FailedText, intent)];
        }
      } else {
        entries := entries + [Preview(activity, intent)];
      }
      messageOrder := messageOrder + 1;
    }
    assert slots[..|ordered|] == slots;
  }

  /** Every feed entry is the entry of the activity at its own position,
      positions increase along the feed, and only an unrendered
      conversation leaves a position out. */
  lemma FeedCorrespondence(ordered: seq<ApiMessage>, expanded: map<string, seq<ApiMessage>>, renders: Conversation -> bool)
    requires AllHaveActivity(ordered)
    ensures |FeedPositions(ordered, expanded, renders)| == |Feed(ordered, expanded, renders)|
    ensures forall p, q :: 0 <= p < q < |FeedPositions(ordered, expanded, renders)| ==>
      FeedPositions(ordered, expanded, renders)[p] < FeedPositions(ordered, expanded, renders)[q]
    ensures forall p :: 0 <= p < |FeedPositions(ordered, expanded, renders)| ==>
      FeedPositions(ordered, expanded, renders)[p] < |ordered|
      && SlotOf(ordered, FeedPositions(ordered, expanded, renders)[p], expanded, renders)
         == Some(Feed(ordered, expanded, renders)[p])
    ensures forall j :: 0 <= j < |ordered| && SlotOf(ordered, j, expanded, renders).Some? ==>
      j in FeedPositions(ordered, expanded, renders)
  {
    PresentCorrespondence(Slots(ordered, expanded, renders));
  }

  /** No two entries of one feed emit the same expansion key. */
  lemma FeedKeysDistinct(ordered: seq<ApiMessage>, expanded: map<string, seq<ApiMessage>>, renders: Conversation -> bool)
    requires AllHaveActivity(ordered)
    ensures forall p, q :: 0 <= p < q < |Feed(ordered, expanded, renders)| ==>
      && Feed(ordered, expanded, renders)[p].onRelease.ExpandActivity?
      && Feed(ordered, expanded, renders)[q].onRelease.ExpandActivity?
      && Feed(ordered, expanded, renders)[p].onRelease.activityKey != Feed(ordered, expanded, renders)[q].onRelease.activityKey
  {
    var feed := Feed(ordered, expanded, renders);
    var pos := FeedPositions(ordered, expanded, renders);
    FeedCorrespondence(ordered, expanded, renders);
    forall p, q | 0 <= p < q < |feed|
      ensures feed[p].onRelease.ExpandActivity? && feed[q].onRelease.ExpandActivity?
      ensures feed[p].onRelease.activityKey != feed[q].onRelease.activityKey
    {
      assert feed[p].onRelease.activityKey == ExpansionKey(pos[p]);
      assert feed[q].onRelease.activityKey == ExpansionKey(pos[q]);
      ExpansionKeyInjective(pos[p], pos[q]);
    }
  }

  /** When every conversation renders, the feed has one entry per activity,
      the k-th being the entry of the k-th activity under key k. */
  lemma FeedWhenAllRender(ordered: seq<ApiMessage>, expanded: map<string, seq<ApiMessage>>, renders: Conversation -> bool)
    requires AllHaveActivity(ordered)
    requires forall c :: renders(c)
    ensures |Feed(ordered, expanded, renders)| == |ordered|
    ensures forall k :: 0 <= k < |ordered| ==> SlotOf(ordered, k, expanded, renders) == Some(Feed(ordered, expanded, renders)[k])
  {
    var slots := Slots(ordered, expanded, renders);
    forall j | 0 <= j < |slots| ensures slots[j].Some? {
      assert slots[j] == SlotOf(ordered, j, expanded, renders);
    }
    PresentAll(slots);
  }

  // ---------------------------------------------------------------- page

  datatype HomeView = HomeView(
    teamRows: seq<TeamRow>,
    teamsListEmpty: bool,
    rightPadding: nat,
    feed: seq<FeedEntry>)

  /** The whole home page: team list, its padding rule and the activity feed. */
  method Home(
    teams: seq<Team>,
    activities: seq<ApiMessage>,
    expandedConversations: map<string, seq<ApiMessage>>,
    searchTeamsInputValue: string,
    renders: Conversation -> bool)
    returns (view: HomeView)
    requires AllHaveActivity(activities)
    ensures |view.teamRows| == |MatchingTeams(teams, searchTeamsInputValue)|
    ensures forall k :: 0 <= k < |view.teamRows| ==>
      view.teamRows[k].team == MatchingTeams(teams, searchTeamsInputValue)[k]
    ensures forall row :: row in view.teamRows ==>
      && row.imageKey == ImageKey(row.team)
      && row.onFetchImage == FetchTeamImage(ImageKey(row.team), row.team.pictureETag.GetOr(""),
                                            row.team.teamSiteInformation.groupId, row.team.displayName)
      && row.onPress == OpenTeam(row.team.id, row.team.id)
      && row.onEnter == PrefetchTeam(row.team.id, row.team.id)
    ensures view.teamsListEmpty <==> MatchingTeams(teams, searchTeamsInputValue) == []
    ensures view.rightPadding == (if view.teamsListEmpty then EmptyListPadding else 0)
    ensures AllHaveActivity(Reverse(activities))
    ensures view.feed == Feed(Reverse(activities), expandedConversations, renders)
  {
    var rows, teamsListEmpty := TeamRows(teams, searchTeamsInputValue);
    var padding := 0;
    if teamsListEmpty {
      padding := EmptyListPadding;
    }
    var feed, _ := AssembleFeed(activities, expandedConversations, renders);
    view := HomeView(rows, teamsListEmpty, padding, feed);
  }

  // ---------------------------------------------------------------- scenarios

  /** A two-item stream is shown in reverse order, under keys 0 and 1. */
  lemma TwoItemFeed(m1: ApiMessage, m2: ApiMessage, expanded: map<string, seq<ApiMessage>>, renders: Conversation -> bool)
    requires HasActivity(m1) && HasActivity(m2)
    ensures AllHaveActivity(Reverse([m1, m2]))
    ensures Feed(Reverse([m1, m2]), expanded, renders) ==
      Entries(Slot(ActivityOf(m2), 0, expanded, renders)) + Entries(Slot(ActivityOf(m1), 1, expanded, renders))
  {
    var ordered := Reverse([m1, m2]);
    assert [m1, m2][..1] == [m1];
    assert [m1][..0] == [];
    assert Reverse([m1]) == [m1];
    assert ordered == [m2, m1];
    assert AllHaveActivity(ordered);
    var slots := Slots(ordered, expanded, renders);
    assert slots[0] == Slot(ActivityOf(m2), 0, expanded, renders);
    assert slots[1] == Slot(ActivityOf(m1), 1, expanded, renders);
    assert slots[..1][..0] == [];
    assert Present(slots) == Present(slots[..1]) + Entries(slots[1]);
  }

  /** A conversation renderer that always yields a widget. */
  predicate AlwaysRenders(c: Conversation) {
    true
  }

  /** Two previews, in reverse stream order, when nothing is expanded. */
  lemma ScenarioNothingExpanded(m1: ApiMessage, m2: ApiMessage)
    requires HasActivity(m1) && HasActivity(m2)
    ensures AllHaveActivity(Reverse([m1, m2]))
    ensures Feed(Reverse([m1, m2]), map[], AlwaysRenders) ==
      [Preview(ActivityOf(m2), ExpandActivity(ActivityOf(m2).sourceThreadId, GroupingId(ActivityOf(m2)), "expandend_activity_0")),
       Preview(ActivityOf(m1), ExpandActivity(ActivityOf(m1).sourceThreadId, GroupingId(ActivityOf(m1)), "expandend_activity_1"))]
  {
    TwoItemFeed(m1, m2, map[], AlwaysRenders);
    assert NatToString(0) == "0";
    assert NatToString(1) == "1";
    assert ExpansionKey(0) == "expandend_activity_0";
    assert ExpansionKey(1) == "expandend_activity_1";
  }

  /** A failed expansion stored under key 0 shows the failure text for the last activity. */
  lemma ScenarioNewestFailed(m1: ApiMessage, m2: ApiMessage)
    requires HasActivity(m1) && HasActivity(m2)
    ensures AllHaveActivity(Reverse([m1, m2]))
    ensures Feed(Reverse([m1, m2]), map["expandend_activity_0" := []], AlwaysRenders) ==
      [Failed(FailedText, ExpandActivity(ActivityOf(m2).sourceThreadId, GroupingId(ActivityOf(m2)), "expandend_activity_0")),
       Preview(ActivityOf(m1), ExpandActivity(ActivityOf(m1).sourceThreadId, GroupingId(ActivityOf(m1)), "expandend_activity_1"))]
  {
    var store: map<string, seq<ApiMessage>> := map["expandend_activity_0" := []];
    TwoItemFeed(m1, m2, store, AlwaysRenders);
    assert NatToString(0) == "0";
    assert NatToString(1) == "1";
    assert ExpansionKey(0) == "expandend_activity_0";
    assert ExpansionKey(1) == "expandend_activity_1";
    assert ExpansionKey(1)[|ExpansionKeyPrefix|] != ExpansionKey(0)[|ExpansionKeyPrefix|];
    assert ExpansionKey(1) !in store;
  }

  /** A store filled under the key "expanded_activity_0" is not read by the feed:
      the page looks up "expandend_activity_0". */
  lemma ScenarioOtherSpellingIgnored(m2: ApiMessage)
    requires HasActivity(m2)
    ensures AllHaveActivity([m2])
    ensures Feed([m2], map["expanded_activity_0" := []], AlwaysRenders) ==
      [Preview(ActivityOf(m2), ExpandActivity(ActivityOf(m2).sourceThreadId, GroupingId(ActivityOf(m2)), "expandend_activity_0"))]
  {
    var slots := Slots([m2], map["expanded_activity_0" := []], AlwaysRenders);
    assert slots[..0] == [];
    assert NatToString(0) == "0";
    assert ExpansionKey(0) == "expandend_activity_0";
    assert ExpansionKey(0)[7] != "expanded_activity_0"[7];
  }
}
