/** The values the two pages read (teams, channels, API messages, activities,
    conversations) and the intents their widgets emit. Only the fields the
    pages read are modelled. */
module Api {
  import opened Wrappers

  datatype TeamSiteInformation = TeamSiteInformation(groupId: string)

  datatype Team = Team(
    id: string,
    displayName: string,
    pictureETag: Option<string>,
    teamSiteInformation: TeamSiteInformation)

  /** A channel whose id equals its team's id is the team's default channel. */
  datatype Channel = Channel(id: string, displayName: string)

  datatype Activity = Activity(
    sourceThreadId: string,
    sourceMessageId: string,
    sourceReplyChainId: Option<string>)

  datatype Properties = Properties(activity: Option<Activity>)

  /** An API message; feed items carry their activity under `properties`. */
  datatype ApiMessage = ApiMessage(id: string, content: string, properties: Option<Properties>)

  predicate HasActivity(m: ApiMessage) {
    m.properties.Some? && m.properties.value.activity.Some?
  }

  function ActivityOf(m: ApiMessage): Activity
    requires HasActivity(m)
  {
    m.properties.value.activity.value
  }

  predicate AllHaveActivity(ms: seq<ApiMessage>) {
    forall i :: 0 <= i < |ms| ==> HasActivity(ms[i])
  }

  datatype Conversation = Conversation(
    id: string,
    containerId: string,
    latestDeliveryTime: string,
    messages: seq<ApiMessage>)

  datatype TeamConversations = TeamConversations(replyChains: seq<Conversation>)

  /** The messages a widget sends back into the update path. */
  datatype Intent =
    | ExpandActivity(threadId: string, messageId: string, activityKey: string)
    | OpenTeam(teamId: string, channelId: string)
    | PrefetchTeam(teamId: string, channelId: string)
    | FetchTeamImage(key: string, eTag: string, groupId: string, displayName: string)

  /** The identity under which a team's picture is cached: its ETag when it
      has one, otherwise its display name. */
  function ImageKey(t: Team): (key: string)
    ensures key == t.displayName || t.pictureETag == Some(key)
    ensures t.pictureETag.Some? ==> key == t.pictureETag.value
  {
    t.pictureETag.GetOr(t.displayName)
  }
}
