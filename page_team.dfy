/** The view-model behind a team's page (src/pages/page_team.rs): the
    conversation column, the cached team picture, and the channel list,
    which the page first sorts in place so the default channel leads. */
module PageTeam {
  import opened Wrappers
  import opened Api
  import opened Seqs

  const ImageCacheDir: string := "image-cache"
  const PictureExtension: string := ".jpeg"

  /** Channel column widths: the wide one fits up to this many channels. */
  const WideColumnMaxChannels: nat := 13
  const WideColumnWidth: nat := 220
  const NarrowColumnWidth: nat := 185

  // ---------------------------------------------------------------- conversations

  /** Whether a conversation shows its replies: the stored option, false when none is stored. */
  function ShowReplies(replyOptions: map<string, bool>, id: string): (show: bool)
    ensures show <==> id in replyOptions && replyOptions[id]
  {
    if id in replyOptions then replyOptions[id] else false
  }

  /** What the conversation renderer is given for one reply chain. */
  datatype ConversationView = ConversationView(id: string, messages: seq<ApiMessage>, showReplies: bool)

  /** A reply chain as handed to the renderer: its messages in reverse order. */
  function ViewOf(c: Conversation, replyOptions: map<string, bool>): (v: ConversationView)
    ensures v.id == c.id && |v.messages| == |c.messages|
    ensures forall j :: 0 <= j < |c.messages| ==> v.messages[j] == c.messages[|c.messages| - 1 - j]
    ensures v.showReplies == ShowReplies(replyOptions, c.id)
  {
    ReverseAt(c.messages);
    ConversationView(c.id, Reverse(c.messages), ShowReplies(replyOptions, c.id))
  }

  /** The view of a reply chain, when the renderer turns it into a widget. */
  function RenderedView(c: Conversation, replyOptions: map<string, bool>, renders: ConversationView -> bool)
    : Option<ConversationView>
  {
    var v := ViewOf(c, replyOptions);
    if renders(v) then Some(v) else None
  }

  /** The rendered view of every position of `ordered`. */
  function ShownSlots(ordered: seq<Conversation>, replyOptions: map<string, bool>, renders: ConversationView -> bool)
    : (r: seq<Option<ConversationView>>)
    ensures |r| == |ordered|
    ensures forall i :: 0 <= i < |ordered| ==> r[i] == RenderedView(ordered[i], replyOptions, renders)
  {
    seq(|ordered|, i requires 0 <= i < |ordered| => RenderedView(ordered[i], replyOptions, renders))
  }

  /** The views of `ordered` that the renderer turns into widgets, in order. */
  function Shown(ordered: seq<Conversation>, replyOptions: map<string, bool>, renders: ConversationView -> bool)
    : (r: seq<ConversationView>)
    ensures |r| <= |ordered|
  {
    Present(ShownSlots(ordered, replyOptions, renders))
  }

  /** The conversation loop: reply chains in reverse order, each with its
      messages reversed; no conversations give an empty column. */
  method ConversationColumn(
    conversations: Option<TeamConversations>,
    replyOptions: map<string, bool>,
    renders: ConversationView -> bool)
    returns (column: seq<ConversationView>)
    ensures conversations.None? ==> column == []
    ensures conversations.Some? ==>
      column == Shown(Reverse(conversations.value.replyChains), replyOptions, renders)
  {
    column := [];
    if conversations.Some? {
      var ordered := Reverse(conversations.value.replyChains);
      ghost var slots := ShownSlots(ordered, replyOptions, renders);
      for i := 0 to |ordered|
        invariant column == Present(slots[..i])
      {
        assert slots[..i + 1][..i] == slots[..i];
        assert slots[i] == RenderedView(ordered[i], replyOptions, renders);
        var conversation := ordered[i];
        var showReplies := false;
        if conversation.id in replyOptions {
          showReplies := replyOptions[conversation.id];
        }
        var view := ConversationView(conversation.id, Reverse(conversation.messages), showReplies);
        assert view == ViewOf(conversation, replyOptions);
        if renders(view) {
          column := column + [view];
        }
      }
      assert slots[..|ordered|] == slots;
    }
  }

  /** When every view renders, the column holds one view per reply chain,
      in the order given. */
  lemma ShownWhenAllRender(
    ordered: seq<Conversation>, replyOptions: map<string, bool>, renders: ConversationView -> bool)
    requires forall v :: renders(v)
    ensures |Shown(ordered, replyOptions, renders)| == |ordered|
    ensures forall k :: 0 <= k < |ordered| ==> Shown(ordered, replyOptions, renders)[k] == ViewOf(ordered[k], replyOptions)
  {
    var slots := ShownSlots(ordered, replyOptions, renders);
    forall j | 0 <= j < |slots| ensures slots[j].Some? {
      assert renders(ViewOf(ordered[j], replyOptions));
    }
    PresentAll(slots);
  }

  lemma ConversationOrder(chains: seq<Conversation>, replyOptions: map<string, bool>, renders: ConversationView -> bool)
    requires forall v :: renders(v)
    ensures |Shown(Reverse(chains), replyOptions, renders)| == |chains|
    ensures forall k :: 0 <= k < |chains| ==>
      Shown(Reverse(chains), replyOptions, renders)[k] == ViewOf(chains[|chains| - 1 - k], replyOptions)
  {
    ReverseAt(chains);
    ShownWhenAllRender(Reverse(chains), replyOptions, renders);
  }

  /** The positions of `ordered` whose view renders. */
  function ShownPositions(ordered: seq<Conversation>, replyOptions: map<string, bool>, renders: ConversationView -> bool)
    : seq<nat>
  {
    PresentPositions(ShownSlots(ordered, replyOptions, renders))
  }

  /** Each shown view is the rendered view of the chain at its own position,
      positions increase along the column, and every chain whose view
      renders is shown. */
  lemma ShownCorrespondence(
    ordered: seq<Conversation>, replyOptions: map<string, bool>, renders: ConversationView -> bool)
    ensures |ShownPositions(ordered, replyOptions, renders)| == |Shown(ordered, replyOptions, renders)|
    ensures forall p, q :: 0 <= p < q < |ShownPositions(ordered, replyOptions, renders)| ==>
      ShownPositions(ordered, replyOptions, renders)[p] < ShownPositions(ordered, replyOptions, renders)[q]
    ensures forall p :: 0 <= p < |ShownPositions(ordered, replyOptions, renders)| ==>
      && ShownPositions(ordered, replyOptions, renders)[p] < |ordered|
      && Shown(ordered, replyOptions, renders)[p] == ViewOf(ordered[ShownPositions(ordered, replyOptions, renders)[p]], replyOptions)
      && renders(Shown(ordered, replyOptions, renders)[p])
    ensures forall j :: 0 <= j < |ordered| && renders(ViewOf(ordered[j], replyOptions)) ==>
      j in ShownPositions(ordered, replyOptions, renders)
  {
    PresentCorrespondence(ShownSlots(ordered, replyOptions, renders));
  }

  /** A chain whose view renders appears in the column. */
  lemma ShownComplete(
    ordered: seq<Conversation>, replyOptions: map<string, bool>, renders: ConversationView -> bool, k: nat)
    requires k < |ordered| && renders(ViewOf(ordered[k], replyOptions))
    ensures ViewOf(ordered[k], replyOptions) in Shown(ordered, replyOptions, renders)
  {
    var positions := ShownPositions(ordered, replyOptions, renders);
    ShownCorrespondence(ordered, replyOptions, renders);
    var p :| 0 <= p < |positions| && positions[p] == k;
    assert Shown(ordered, replyOptions, renders)[p] == ViewOf(ordered[k], replyOptions);
  }

  /** Every shown view is a rendered view of one of the reply chains. */
  lemma ShownMembers(
    ordered: seq<Conversation>, replyOptions: map<string, bool>, renders: ConversationView -> bool, v: ConversationView)
    requires v in Shown(ordered, replyOptions, renders)
    ensures renders(v)
    ensures exists k :: 0 <= k < |ordered| && v == ViewOf(ordered[k], replyOptions)
  {
    var positions := ShownPositions(ordered, replyOptions, renders);
    ShownCorrespondence(ordered, replyOptions, renders);
    var p :| 0 <= p < |Shown(ordered, replyOptions, renders)| && Shown(ordered, replyOptions, renders)[p] == v;
    assert v == ViewOf(ordered[positions[p]], replyOptions);
  }

  // ---------------------------------------------------------------- picture

  /** The file the team's picture is cached under: its stem is the cache key
      the home page uses, its extension ".jpeg". */
  function PictureFileName(t: Team): (name: string)
    ensures |name| == |ImageKey(t)| + |PictureExtension|
    ensures name[..|ImageKey(t)|] == ImageKey(t)
    ensures name[|ImageKey(t)|..] == ".jpeg"
  {
    ImageKey(t) + PictureExtension
  }

  /** The picture's path below the application's cache directory. */
  function PicturePath(t: Team): (p: seq<string>)
    ensures |p| == 2 && p[0] == ImageCacheDir && p[1] == PictureFileName(t)
  {
    [ImageCacheDir, PictureFileName(t)]
  }

  /** Two teams share a picture file exactly when they share a cache key. */
  lemma PictureFileNameInjective(a: Team, b: Team)
    ensures PictureFileName(a) == PictureFileName(b) <==> ImageKey(a) == ImageKey(b)
  {
  }

  // ---------------------------------------------------------------- channel order

  predicate IsDefault(c: Channel, teamId: string) {
    c.id == teamId
  }

  /** The team's default channels, in input order. */
  function Defaults(s: seq<Channel>, teamId: string): (r: seq<Channel>)
    ensures |r| <= |s|
    ensures forall k :: 0 <= k < |r| ==> IsDefault(r[k], teamId)
  {
    if s == [] then []
    else
      var n := |s| - 1;
      Defaults(s[..n], teamId) + (if IsDefault(s[n], teamId) then [s[n]] else [])
  }

  /** The other channels, in input order. */
  function Others(s: seq<Channel>, teamId: string): (r: seq<Channel>)
    ensures |r| <= |s|
    ensures forall k :: 0 <= k < |r| ==> !IsDefault(r[k], teamId)
  {
    if s == [] then []
    else
      var n := |s| - 1;
      Others(s[..n], teamId) + (if IsDefault(s[n], teamId) then [] else [s[n]])
  }

  /** The channel list after the page's stable sort on "is not the default channel". */
  function DefaultFirst(s: seq<Channel>, teamId: string): (r: seq<Channel>)
    ensures |r| == |s|
  {
    SplitLength(s, teamId);
    Defaults(s, teamId) + Others(s, teamId)
  }

  /** Sorted by the key `id != team.id`: no default channel after another channel. */
  predicate DefaultsLead(s: seq<Channel>, teamId: string) {
    forall p, q :: 0 <= p < q < |s| && IsDefault(s[q], teamId) ==> IsDefault(s[p], teamId)
  }

  lemma {:induction false} DefaultsAppend(a: seq<Channel>, b: seq<Channel>, teamId: string)
    ensures Defaults(a + b, teamId) == Defaults(a, teamId) + Defaults(b, teamId)
  {
    if b == [] {
      assert a + b == a;
    } else {
      var n := |b| - 1;
      DefaultsAppend(a, b[..n], teamId);
      assert (a + b)[..|a + b| - 1] == a + b[..n];
      assert (a + b)[|a + b| - 1] == b[n];
    }
  }

  lemma {:induction false} OthersAppend(a: seq<Channel>, b: seq<Channel>, teamId: string)
    ensures Others(a + b, teamId) == Others(a, teamId) + Others(b, teamId)
  {
    if b == [] {
      assert a + b == a;
    } else {
      var n := |b| - 1;
      OthersAppend(a, b[..n], teamId);
      assert (a + b)[..|a + b| - 1] == a + b[..n];
      assert (a + b)[|a + b| - 1] == b[n];
    }
  }

  lemma {:induction false} SplitLength(s: seq<Channel>, teamId: string)
    ensures |Defaults(s, teamId)| + |Others(s, teamId)| == |s|
  {
    if s != [] {
      SplitLength(s[..|s| - 1], teamId);
    }
  }

  lemma {:induction false} SplitCounts(s: seq<Channel>, teamId: string)
    ensures multiset(Defaults(s, teamId)) + multiset(Others(s, teamId)) == multiset(s)
  {
    if s != [] {
      var n := |s| - 1;
      SplitCounts(s[..n], teamId);
      assert s == s[..n] + [s[n]];
      assert multiset(s) == multiset(s[..n]) + multiset{s[n]};
    }
  }

  /** One step of the sort: the effect of one more channel at the end of the input. */
  lemma DefaultFirstSnoc(s: seq<Channel>, c: Channel, teamId: string)
    ensures DefaultFirst(s + [c], teamId) ==
      if IsDefault(c, teamId) then Defaults(s, teamId) + [c] + Others(s, teamId)
      else Defaults(s, teamId) + Others(s, teamId) + [c]
    ensures |Defaults(s + [c], teamId)| == |Defaults(s, teamId)| + if IsDefault(c, teamId) then 1 else 0
  {
    assert (s + [c])[..|s|] == s;
  }

  lemma {:induction false} DefaultsOfAllDefault(s: seq<Channel>, teamId: string)
    requires forall k :: 0 <= k < |s| ==> IsDefault(s[k], teamId)
    ensures Defaults(s, teamId) == s && Others(s, teamId) == []
  {
    if s != [] {
      var n := |s| - 1;
      DefaultsOfAllDefault(s[..n], teamId);
      assert s == s[..n] + [s[n]];
    }
  }

  lemma {:induction false} OthersOfNoDefault(s: seq<Channel>, teamId: string)
    requires forall k :: 0 <= k < |s| ==> !IsDefault(s[k], teamId)
    ensures Defaults(s, teamId) == [] && Others(s, teamId) == s
  {
    if s != [] {
      var n := |s| - 1;
      OthersOfNoDefault(s[..n], teamId);
      assert s == s[..n] + [s[n]];
    }
  }

  /** The sort is a permutation of the channel list. */
  lemma DefaultFirstPermutation(s: seq<Channel>, teamId: string)
    ensures multiset(DefaultFirst(s, teamId)) == multiset(s)
  {
    SplitCounts(s, teamId);
  }

  /** Every default channel precedes every other channel after the sort. */
  lemma DefaultFirstLeads(s: seq<Channel>, teamId: string)
    ensures DefaultsLead(DefaultFirst(s, teamId), teamId)
  {
  }

  /** Within each group the sort keeps the original relative order. */
  lemma DefaultFirstStable(s: seq<Channel>, teamId: string)
    ensures Defaults(DefaultFirst(s, teamId), teamId) == Defaults(s, teamId)
    ensures Others(DefaultFirst(s, teamId), teamId) == Others(s, teamId)
  {
    DefaultsAppend(Defaults(s, teamId), Others(s, teamId), teamId);
    OthersAppend(Defaults(s, teamId), Others(s, teamId), teamId);
    DefaultsOfAllDefault(Defaults(s, teamId), teamId);
    OthersOfNoDefault(Others(s, teamId), teamId);
  }

  lemma {:induction false} LeadingSplit(r: seq<Channel>, teamId: string)
    requires DefaultsLead(r, teamId)
    ensures r == Defaults(r, teamId) + Others(r, teamId)
  {
    if r != [] {
      var n := |r| - 1;
      var init := r[..n];
      assert DefaultsLead(init, teamId);
      if IsDefault(r[n], teamId) {
        DefaultsOfAllDefault(r, teamId);
      } else {
        LeadingSplit(init, teamId);
      }
    }
  }

  /** A stable sort by the key is unique: any list ordered default-first
      that keeps each group's order equals DefaultFirst. */
  lemma StableSortUnique(s: seq<Channel>, r: seq<Channel>, teamId: string)
    requires DefaultsLead(r, teamId)
    requires Defaults(r, teamId) == Defaults(s, teamId)
    requires Others(r, teamId) == Others(s, teamId)
    ensures r == DefaultFirst(s, teamId)
  {
    LeadingSplit(r, teamId);
  }

  /** When the team's default channel is in the list, it comes first. */
  lemma {:induction false} DefaultChannelFirst(s: seq<Channel>, teamId: string, i: nat)
    requires i < |s| && IsDefault(s[i], teamId)
    ensures IsDefault(DefaultFirst(s, teamId)[0], teamId)
  {
    var n := |s| - 1;
    if i < n {
      DefaultChannelFirst(s[..n], teamId, i);
    }
  }

  /** One step of the sort loop, on values: where channel `i` goes. */
  lemma SortStep(original: seq<Channel>, before: seq<Channel>, i: nat, placed: nat, teamId: string)
    requires i < |original| == |before|
    requires placed == |Defaults(original[..i], teamId)|
    requires before[..i] == DefaultFirst(original[..i], teamId)
    requires before[i..] == original[i..]
    ensures before[i] == original[i] && placed <= i
    ensures IsDefault(original[i], teamId) ==>
      && before[..placed] + [original[i]] + before[placed..i] == DefaultFirst(original[..i + 1], teamId)
      && |Defaults(original[..i + 1], teamId)| == placed + 1
    ensures !IsDefault(original[i], teamId) ==>
      && before[..i] + [original[i]] == DefaultFirst(original[..i + 1], teamId)
      && |Defaults(original[..i + 1], teamId)| == placed
  {
    var c := original[i];
    var prefix := original[..i];
    var d := Defaults(prefix, teamId);
    var o := Others(prefix, teamId);
    assert before[i] == c by {
      assert original[i..][0] == before[i..][0];
    }
    assert original[..i + 1] == prefix + [c];
    DefaultFirstSnoc(prefix, c, teamId);
    assert before[..i] == d + o;
    SplitAt(before[..i], d, o);
    assert before[..placed] == d by {
      assert before[..i][..placed] == before[..placed];
    }
    assert before[placed..i] == o by {
      assert before[..i][placed..] == before[placed..i];
    }
  }

  lemma SplitAt(whole: seq<Channel>, front: seq<Channel>, back: seq<Channel>)
    requires whole == front + back
    ensures whole[..|front|] == front && whole[|front|..] == back
  {
  }

  /** Moves a[hi] to position lo, shifting a[lo..hi] one place right. */
  method Rotate(a: array<Channel>, lo: nat, hi: nat)
    requires lo <= hi < a.Length
    modifies a
    ensures a[..hi + 1] == old(a[..lo]) + [old(a[hi])] + old(a[lo..hi])
    ensures a[hi + 1..] == old(a[hi + 1..])
  {
    var x := a[hi];
    var j := hi;
    while j > lo
      invariant lo <= j <= hi
      invariant forall k :: 0 <= k < j ==> a[k] == old(a[k])
      invariant forall k :: j < k <= hi ==> a[k] == old(a[k - 1])
      invariant forall k :: hi < k < a.Length ==> a[k] == old(a[k])
    {
      a[j] := a[j - 1];
      j := j - 1;
    }
    a[lo] := x;
    assert a[..hi + 1] == old(a[..lo]) + [old(a[hi])] + old(a[lo..hi]) by {
      var rhs := old(a[..lo]) + [old(a[hi])] + old(a[lo..hi]);
      assert |rhs| == hi + 1;
      forall k | 0 <= k <= hi ensures a[k] == rhs[k] {
        if lo < k {
          assert rhs[k] == old(a[lo..hi])[k - lo - 1];
        }
      }
    }
  }

  /** `team.channels.sort_by_key(|item| item.id != team.id)`, in place. */
  method SortDefaultFirst(channels: array<Channel>, teamId: string)
    modifies channels
    ensures channels[..] == DefaultFirst(old(channels[..]), teamId)
  {
    ghost var original := channels[..];
    var placed := 0;
    for i := 0 to channels.Length
      invariant placed == |Defaults(original[..i], teamId)|
      invariant channels[..i] == DefaultFirst(original[..i], teamId)
      invariant channels[i..] == original[i..]
    {
      ghost var before := channels[..];
      assert before[..i] == channels[..i];
      SortStep(original, before, i, placed, teamId);
      var c := channels[i];
      if IsDefault(c, teamId) {
        Rotate(channels, placed, i);
        placed := placed + 1;
      }
      assert channels[i + 1..] == original[i + 1..];
    }
    assert original[..channels.Length] == original;
  }

  // ---------------------------------------------------------------- channel rows

  /** The channel column is wide for up to 13 channels and narrow beyond. */
  function ColumnWidth(channelCount: nat): (width: nat)
    ensures width == WideColumnWidth <==> channelCount <= WideColumnMaxChannels
    ensures width == NarrowColumnWidth <==> channelCount > WideColumnMaxChannels
  {
    if channelCount <= WideColumnMaxChannels then WideColumnWidth else NarrowColumnWidth
  }

  datatype ChannelRow = ChannelRow(
    channel: Channel,
    selected: bool,
    width: nat,
    onEnter: Intent,
    onRelease: Intent)

  /** The channel loop: one row per channel, in list order. */
  method ChannelRows(teamId: string, channels: seq<Channel>, pageChannel: Channel, channelCount: nat)
    returns (rows: seq<ChannelRow>)
    ensures |rows| == |channels|
    ensures forall k :: 0 <= k < |rows| ==>
      && rows[k].channel == channels[k]
      && (rows[k].selected <==> channels[k].id == pageChannel.id)
      && rows[k].width == ColumnWidth(channelCount)
      && rows[k].onEnter == PrefetchTeam(teamId, channels[k].id)
      && rows[k].onRelease == OpenTeam(teamId, channels[k].id)
  {
    rows := [];
    for i := 0 to |channels|
      invariant |rows| == i
      invariant forall k :: 0 <= k < i ==>
        && rows[k].channel == channels[k]
        && (rows[k].selected <==> channels[k].id == pageChannel.id)
        && rows[k].width == ColumnWidth(channelCount)
        && rows[k].onEnter == PrefetchTeam(teamId, channels[k].id)
        && rows[k].onRelease == OpenTeam(teamId, channels[k].id)
    {
      var channel := channels[i];
      var width := if channelCount <= WideColumnMaxChannels then WideColumnWidth else NarrowColumnWidth;
      rows := rows + [ChannelRow(channel, channel.id == pageChannel.id, width,
                                 PrefetchTeam(teamId, channel.id), OpenTeam(teamId, channel.id))];
    }
  }

  // ---------------------------------------------------------------- page

  datatype TeamPageView = TeamPageView(
    conversationColumn: seq<ConversationView>,
    picturePath: seq<string>,
    channelRows: seq<ChannelRow>)

  /** The whole team page. `channels` is the team's channel list, which the
      page borrows mutably and leaves sorted default-first. */
  method TeamPage(
    team: Team,
    channels: array<Channel>,
    pageChannel: Channel,
    conversations: Option<TeamConversations>,
    replyOptions: map<string, bool>,
    renders: ConversationView -> bool)
    returns (view: TeamPageView)
    modifies channels
    ensures channels[..] == DefaultFirst(old(channels[..]), team.id)
    ensures conversations.None? ==> view.conversationColumn == []
    ensures conversations.Some? ==>
      view.conversationColumn == Shown(Reverse(conversations.value.replyChains), replyOptions, renders)
    ensures view.picturePath == PicturePath(team)
    ensures |view.channelRows| == channels.Length
    ensures forall k :: 0 <= k < |view.channelRows| ==>
      && view.channelRows[k].channel == channels[k]
      && (view.channelRows[k].selected <==> channels[k].id == pageChannel.id)
      && view.channelRows[k].width == ColumnWidth(channels.Length)
      && view.channelRows[k].onEnter == PrefetchTeam(team.id, channels[k].id)
      && view.channelRows[k].onRelease == OpenTeam(team.id, channels[k].id)
  {
    var column := ConversationColumn(conversations, replyOptions, renders);
    var path := PicturePath(team);
    var channelCount := channels.Length;
    SortDefaultFirst(channels, team.id);
    var rows := ChannelRows(team.id, channels[..], pageChannel, channelCount);
    view := TeamPageView(column, path, rows);
  }
}
