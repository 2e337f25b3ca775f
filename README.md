# Squads home and team pages, as verified view-models

Squads is a desktop chat client written in Rust with the iced toolkit. Two of its page
functions decide more than layout:

- `home` (src/pages/page_home.rs) filters the team list by the search text. It also
  assembles the activity feed from the stream in reverse order. Each feed item is a
  collapsed preview, a "Failed to load conversation." marker or a loaded conversation,
  depending on what the expanded-conversations map holds under the item's positional key
  `expandend_activity_<i>`.
- `team` (src/pages/page_team.rs) shows a team's reply chains in reverse order. It sorts the
  team's channel list in place so the default channel (id equal to the team's id) leads,
  and builds one row per channel. Each row has a selection flag, a column width and
  hover/release intents. It also names the cached team picture file.

This project models that decision logic as plain view-models. The widgets are not
modelled: each row or feed entry records what it shows and the intents (`Intent`) it emits.
Both pages loop while updating local variables, so the loops are methods with invariants.
Each loop is proved against a specification: a recursive function of its input (the team
filter, the feed, the conversation column) or element-by-element postconditions (the
channel rows, the rotation step of the sort). The lemmas state what the source promises
about those functions.

Modules and files:

- `wrappers.dfy`, module `Wrappers`: `Option` and its `GetOr` (Rust's `unwrap_or`).
- `api.dfy`, module `Api`: teams, channels, API messages and activities, conversations,
  the `Intent` enum, and `ImageKey`, the picture cache key both pages use.
- `text.dfy`, module `Text`: decimal rendering of the feed counter (with its inverse
  `ParseNat`) and ASCII lower-casing.
- `seqs.dfy`, module `Seqs`: sequence reversal (`iter().rev().collect()`), and `Present`,
  the values kept from a sequence of optional slots. Both the feed and the conversation
  column are `Present` of one slot per position, and `PresentCorrespondence` ties each kept
  value to its position.
- `page_home.dfy`, module `PageHome`: the team filter loop, the feed loop, and the whole page.
- `page_team.dfy`, module `PageTeam`: the conversation loop, the picture path, the in-place
  channel sort on an `array`, the channel-row loop, and the whole page.

Of the rendering collaborators, only the conversation renderer (`c_conversation`) is kept.
It can yield no widget, so it becomes a total predicate `renders`, and a `false` result
omits the entry.

The model follows the code as written, including three details a reader might not expect:

- The key prefix is spelled `expandend_activity_` in the code. A store filled under
  `expanded_activity_0` is not read: `ScenarioOtherSpellingIgnored` shows this.
- Loaded feed entries emit the same `ExpandActivity` intent as previews and failure
  markers, not a separate collapse intent.
- When the conversation renderer yields nothing for a loaded entry, the entry is omitted.
  The positional counter still advances.

## Model

| member | source | states |
|---|---|---|
| `Api.ImageKey` | src/pages/page_home.rs:47-50 | the cache key is the team's picture ETag when it has one, otherwise its display name (it is always one of the two) |
| `Text.NatToString` | src/pages/page_home.rs:122 | the counter is written in decimal: at least one digit, digits only, no leading zero except for 0 |
| `Text.ParseNatToString` | src/pages/page_home.rs:122 | reading the decimal form back gives the counter: rendering round-trips |
| `Text.NatToStringInjective` | src/pages/page_home.rs:122 | two counters have the same decimal form iff they are equal |
| `Seqs.ReverseAt` | src/pages/page_home.rs:110 | the reversed stream has the same length and its k-th item is the (n-1-k)-th of the input |
| `Seqs.Reverse` | src/pages/page_home.rs:110 | reversing a stream keeps its length (item by item in `ReverseAt`) |
| `PageHome.Matches` | src/pages/page_home.rs:37-41 | an empty search text lets every team through (`"".starts_with` holds); `MatchingTeamsMembers` gives the full test |
| `PageHome.MatchingTeams` | src/pages/page_home.rs:36-45 | the filtered team list is never longer than the input |
| `PageHome.TeamRows` | src/pages/page_home.rs:34-80 | one row per matching team in filter order. Each row's image key is `ImageKey(team)`. It emits `FetchTeamImage(key, ETag or "", group id, display name)`, `OpenTeam(id, id)` on press and `PrefetchTeam(id, id)` on hover. `teamsListEmpty` holds iff no row was produced, iff no team matches |
| `PageHome.MatchingTeamsMembers` | src/pages/page_home.rs:36-45 | a team is listed iff it is in the input and its lower-cased name starts with the lower-cased search text |
| `PageHome.MatchingTeamsAppend` | src/pages/page_home.rs:36-45 | filtering a concatenation is the concatenation of the filtered parts, so input order is kept |
| `PageHome.MatchingTeamsEmptySearch` | src/pages/page_home.rs:36-45 | an empty search text lists every team, unchanged and in order |
| `PageHome.MatchingTeamsIgnoresCase` | src/pages/page_home.rs:37-40 | lower-casing the search text first changes nothing |
| `PageHome.ExpansionKey` | src/pages/page_home.rs:122 | the key is longer than the prefix `expandend_activity_` and starts with it |
| `PageHome.ExpansionKeyRoundTrip` | src/pages/page_home.rs:122 | what follows the prefix reads back, in decimal, as the position: the key determines the position |
| `PageHome.ExpansionKeyInjective` | src/pages/page_home.rs:122 | the keys `expandend_activity_<i>` of two positions are equal iff the positions are |
| `PageHome.GroupingId` | src/pages/page_home.rs:116-120 | the grouping id is the reply-chain id when present, else the message id |
| `PageHome.Slot` | src/pages/page_home.rs:122-152 | every entry emits `ExpandActivity(thread id, grouping id, key)`. Key absent gives a preview of the activity. Key present with an empty list gives the failure text. Key present with a non-empty list gives a conversation with those messages in stored order, id = key and empty container id and delivery time. The entry is missing iff that conversation does not render |
| `PageHome.Feed` | src/pages/page_home.rs:109-154 | the feed never has more entries than there are activities (`FeedCorrespondence` says which ones) |
| `PageHome.AssembleFeed` | src/pages/page_home.rs:109-154 | the loop produces the feed of the reversed stream, and its counter ends at the number of activities: it advanced once per activity, whatever the branch |
| `PageHome.FeedCorrespondence` | src/pages/page_home.rs:133-153 | each feed entry is the entry of the activity at its own position (under that position's key). Positions increase along the feed. Only an unrendered loaded conversation leaves a position out |
| `PageHome.FeedKeysDistinct` | src/pages/page_home.rs:122-153 | no two entries of one feed carry the same expansion key |
| `PageHome.FeedWhenAllRender` | src/pages/page_home.rs:113-154 | when every conversation renders, the feed has one entry per activity, the k-th being the k-th activity's entry under key k |
| `PageHome.Home` | src/pages/page_home.rs:102-107 | the page's team rows are the matching teams in order, each with image key `ImageKey(team)` and the intents `FetchTeamImage(key, ETag or "", group id, display name)`, `OpenTeam(id, id)` on press and `PrefetchTeam(id, id)` on hover. `teamsListEmpty` holds iff none matches, right padding is 18 exactly then (0 otherwise), and the feed is that of the reversed stream |
| `PageHome.TwoItemFeed` | src/pages/page_home.rs:110-113 | a two-activity stream is shown in reverse order, the second activity under key 0 and the first under key 1 |
| `PageHome.ScenarioNothingExpanded` | src/pages/page_home.rs:146-151 | with an empty store, activities [A1, A2] give [preview(A2), preview(A1)] |
| `PageHome.ScenarioNewestFailed` | src/pages/page_home.rs:139-145 | with `expandend_activity_0 -> []`, activities [A1, A2] give [failure marker, preview(A1)] |
| `PageHome.ScenarioOtherSpellingIgnored` | src/pages/page_home.rs:122-124 | a store entry under `expanded_activity_0` is not looked up: the item at position 0 stays a preview |
| `PageTeam.ShowReplies` | src/pages/page_team.rs:31-34 | replies are shown iff the conversation's id has a stored option and that option is true |
| `PageTeam.ViewOf` | src/pages/page_team.rs:36-43 | the renderer receives the chain's id, its messages reversed (j-th = (m-1-j)-th stored) and the reply option |
| `PageTeam.Shown` | src/pages/page_team.rs:30-50 | the conversation column is never longer than the list of reply chains |
| `PageTeam.ConversationColumn` | src/pages/page_team.rs:24-51 | no conversations give an empty column; otherwise the column is the rendered views of the reply chains in reverse order |
| `PageTeam.ShownWhenAllRender` | src/pages/page_team.rs:30-50 | when every view renders, the column holds exactly one view per chain, in the order given |
| `PageTeam.ConversationOrder` | src/pages/page_team.rs:26-43 | when every view renders, the k-th shown conversation is the view of the (n-1-k)-th reply chain |
| `PageTeam.ShownCorrespondence` | src/pages/page_team.rs:27-50 | each shown view is the rendered view of the chain at its own position of the reversed list. Positions increase along the column, so the reversed chain order is kept. Every chain whose view renders has its position listed |
| `PageTeam.ShownComplete` | src/pages/page_team.rs:30-50 | every chain whose view renders appears in the column |
| `PageTeam.ShownMembers` | src/pages/page_team.rs:47-49 | every view in the column rendered and is the view of one of the reply chains |
| `PageTeam.PicturePath` | src/pages/page_team.rs:71-78 | the two parts pushed onto the cache directory: `image-cache`, then the picture file name |
| `PageTeam.PictureFileName` | src/pages/page_team.rs:73-78 | the file name is the home page's cache key followed by `.jpeg` |
| `PageTeam.PictureFileNameInjective` | src/pages/page_team.rs:73-78 | two teams share a picture file iff they share a cache key |
| `PageTeam.Defaults` | src/pages/page_team.rs:104 | every channel in the default group has the team's id |
| `PageTeam.Others` | src/pages/page_team.rs:104 | no channel in the other group has the team's id |
| `PageTeam.SortDefaultFirst` | src/pages/page_team.rs:104 | sorting the array in place leaves it equal to the default channels followed by the others, each group in input order |
| `PageTeam.DefaultFirst` | src/pages/page_team.rs:102-104 | the sorted list has as many channels as the input, so the count read before the sort is the length after |
| `PageTeam.DefaultFirstPermutation` | src/pages/page_team.rs:104 | the sorted list holds the same multiset of channels as the input |
| `PageTeam.DefaultFirstLeads` | src/pages/page_team.rs:104 | after the sort no default channel follows a non-default one |
| `PageTeam.DefaultFirstStable` | src/pages/page_team.rs:104 | after the sort each group keeps its original relative order |
| `PageTeam.StableSortUnique` | src/pages/page_team.rs:104 | any list ordered by the key `id != team.id` that keeps each group's order is the sorted list: this is the stable sort by that key |
| `PageTeam.DefaultChannelFirst` | src/pages/page_team.rs:104 | when the team's default channel is in the list, the sorted list starts with a default channel |
| `PageTeam.ColumnWidth` | src/pages/page_team.rs:120 | the width is 220 iff there are at most 13 channels and 185 iff there are more |
| `PageTeam.ChannelRows` | src/pages/page_team.rs:105-125 | one row per channel in list order. A row is selected iff its channel id equals the open channel's id. Its width is `ColumnWidth(count)`. It emits `PrefetchTeam(team id, channel id)` on hover and `OpenTeam(team id, channel id)` on release |
| `PageTeam.TeamPage` | src/pages/page_team.rs:100-125 | the channel array ends sorted default-first, and the rows follow the sorted order with the width taken from the count read before the sort. The conversation column and the picture path are those above |

## Left out

- src/components/navbar.rs: fixed widget layout with constant intents and no decisions.
- Widget construction and styling: columns, rows, containers, scrollables, style sheets,
  spacing and padding other than the 18-unit right padding and the 220/185 widths. The
  search text input (which emits `ContentChanged`) and the name/side-tab texts of the team
  page are layout only.
- Rendering collaborators: `c_preview_message`, `c_cached_image`, `c_message_area` and
  `truncate_name` are not part of this model. A preview entry carries the activity it
  shows, and rows carry the full team or channel rather than a truncated name.
  `c_conversation` is the `renders` predicate: only whether it yields a widget is modelled.
- Theme, emoji map, user profiles, `window_width` and `message_area_height`: the pages
  pass them to renderers only.
- The cache directory lookup (`ProjectDirs` and its `unwrap`): `PicturePath` gives the
  parts pushed onto that directory.
- PageTeam.PicturePath: the file name is kept as one opaque path part. `PathBuf::push`
  treats a key that is absolute, or contains `/` or `..`, differently: an absolute key
  replaces the whole path (a display name `/tmp/x` with no ETag gives `/tmp/x.jpeg`), and
  separators or `..` can place the file outside `image-cache`. The model does not capture
  this path resolution.
- A feed message without `properties.activity` makes the source panic. This is the
  precondition `AllHaveActivity` of `AssembleFeed` and `Home`.
- `Text.Lower`: it lower-cases ASCII letters only. Unicode case mapping is not modelled,
  and no claim is made about lengths.
- `PageTeam.SortDefaultFirst`: Rust's `sort_by_key` (a merge sort) is not reproduced. The
  array is sorted by an insertion-style stable partition. `StableSortUnique` shows the
  result is the one stable sort by the same key.
- The resource cache (fetching, deduplication, persistence) and the updates to the
  expanded-conversations map on expand and collapse happen outside these two files. The
  model only reads the map.
- PageHome.AssembleFeed: the counter `message_order` is an inferred `i32` in the source,
  while the model counts with a `nat`. The model does not capture what happens after
  `i32::MAX` activities: a panic in a debug build, and in a release build a wrap to
  negative keys such as `expandend_activity_-2147483648`.
