/**
 * Outgoing webhooks: when a team has a webhook that is enabled, has a URL
 * and either lists no events or lists this one, a one-line message is
 * posted to the URL. The post itself is fire-and-forget; here it is appended
 * to an outbox, and whether the settings lookup throws is a parameter.
 */
module Webhooks {
  import opened Wrappers
  import opened Store

  /**
   * The payload's fields as they render inside a template literal; a field
   * the payload lacks renders as "undefined". Numbers arrive already rendered.
   */
  type Payload = map<string, string>

  function Field(p: Payload, k: string): string {
    if k in p then p[k] else "undefined"
  }

  function Prefix(teamName: string): string {
    "[" + teamName + "]"
  }

  /**
   * formatWebhookMessage. `serialised` is JSON.stringify(payload), which is
   * not modelled.
   */
  function Format(event: string, p: Payload, serialised: string, teamName: string): (r: string)
    ensures |r| > |Prefix(teamName)| && r[..|Prefix(teamName)| + 1] == Prefix(teamName) + " "
    ensures event !in KnownEvents ==> r == Prefix(teamName) + " " + event + ": " + serialised
  {
    var pre := Prefix(teamName) + " ";
    var body :=
      if event == "task_completed" then
        Field(p, "userName") + " completed \"" + Field(p, "taskTitle") + "\" (+" + Field(p, "xpEarned") + " XP)"
      else if event == "task_created" then
        Field(p, "userName") + " created a new task: \"" + Field(p, "taskTitle") + "\""
      else if event == "level_up" then
        Field(p, "userName") + " leveled up to Level " + Field(p, "newLevel") + " - " + Field(p, "newRank") + "!"
      else if event == "kudos_given" then
        Field(p, "fromUserName") + " sent kudos to " + Field(p, "toUserName") + ": \"" + Field(p, "message") + "\""
      else event + ": " + serialised;
    assert (pre + body)[..|pre|] == pre;
    pre + body
  }

  /** task_completed names the user, the task title in quotes and the experience earned. */
  lemma CompletedTemplate(p: Payload, serialised: string, teamName: string)
    ensures Format("task_completed", p, serialised, teamName)
      == Prefix(teamName) + " " + (Field(p, "userName") + " completed \"" + Field(p, "taskTitle") + "\" (+" + Field(p, "xpEarned") + " XP)")
  {
  }

  /** task_created names the user and the new task's title in quotes. */
  lemma CreatedTemplate(p: Payload, serialised: string, teamName: string)
    ensures Format("task_created", p, serialised, teamName)
      == Prefix(teamName) + " " + (Field(p, "userName") + " created a new task: \"" + Field(p, "taskTitle") + "\"")
  {
    assert "task_created"[6] != "task_completed"[6];
  }

  /** level_up names the user, the new level and the new rank. */
  lemma LevelUpTemplate(p: Payload, serialised: string, teamName: string)
    ensures Format("level_up", p, serialised, teamName)
      == Prefix(teamName) + " " + (Field(p, "userName") + " leveled up to Level " + Field(p, "newLevel") + " - " + Field(p, "newRank") + "!")
  {
    assert "level_up"[0] != "task_completed"[0];
    assert "level_up"[0] != "task_created"[0];
  }

  /** kudos_given names sender and receiver and quotes the message. */
  lemma KudosTemplate(p: Payload, serialised: string, teamName: string)
    ensures Format("kudos_given", p, serialised, teamName)
      == Prefix(teamName) + " " + (Field(p, "fromUserName") + " sent kudos to " + Field(p, "toUserName") + ": \"" + Field(p, "message") + "\"")
  {
    assert "kudos_given"[0] != "task_completed"[0];
    assert "kudos_given"[0] != "task_created"[0];
    assert "kudos_given"[0] != "level_up"[0];
  }

  const KnownEvents: set<string> := {"task_completed", "task_created", "level_up", "kudos_given"}

  datatype Post = Post(url: string, text: string)

  /** What dispatchWebhook posts for this team and event, if anything. */
  function Delivery(teams: seq<Team>, teamId: int, event: string, p: Payload, serialised: string): (r: Option<Post>)
    ensures r.Some? <==>
      && 0 < teamId <= |teams| && teams[teamId - 1].webhooks.Some?
      && teams[teamId - 1].webhooks.value.enabled && teams[teamId - 1].webhooks.value.url != []
      && (teams[teamId - 1].webhooks.value.events.Some? ==> event in teams[teamId - 1].webhooks.value.events.value)
    ensures r.Some? ==> (r.value.url == teams[teamId - 1].webhooks.value.url
      && r.value.text == Format(event, p, serialised, teams[teamId - 1].name))
  {
    if !(0 < teamId <= |teams|) then None
    else
      var team := teams[teamId - 1];
      match team.webhooks
      case None => None
      case Some(w) =>
        if !w.enabled || w.url == [] then None
        else if w.events.Some? && event !in w.events.value then None
        else Some(Post(w.url, Format(event, p, serialised, team.name)))
  }

  /** The posts made so far. */
  class Outbox {
    var sent: seq<Post>

    constructor ()
      ensures sent == []
    {
      sent := [];
    }
  }

  /**
   * dispatchWebhook: at most one post, and none at all when the lookup
   * throws; nothing is reported back to the caller either way.
   */
  method Dispatch(s: Store, out: Outbox, teamId: int, event: string, p: Payload, serialised: string, lookupFails: bool)
    modifies out
    ensures lookupFails ==> out.sent == old(out.sent)
    ensures !lookupFails ==> match Delivery(s.teams, teamId, event, p, serialised)
      case None => out.sent == old(out.sent)
      case Some(post) => out.sent == old(out.sent) + [post]
  {
    if lookupFails {
      return;
    }
    if !(0 < teamId <= |s.teams|) {
      return;
    }
    var team := s.teams[teamId - 1];
    if team.webhooks.None? || !team.webhooks.value.enabled || team.webhooks.value.url == [] {
      return;
    }
    var w := team.webhooks.value;
    if w.events.Some? && event !in w.events.value {
      return;
    }
    var text := Format(event, p, serialised, team.name);
    out.sent := out.sent + [Post(w.url, text)];
  }

  /** Whatever is posted begins with the team's own prefix and goes to the team's own URL. */
  lemma DeliveryPrefixed(teams: seq<Team>, teamId: int, event: string, p: Payload, serialised: string)
    requires Delivery(teams, teamId, event, p, serialised).Some?
    ensures var post := Delivery(teams, teamId, event, p, serialised).value;
      var pre := Prefix(teams[teamId - 1].name) + " ";
      |post.text| > |pre| && post.text[..|pre|] == pre && post.url == teams[teamId - 1].webhooks.value.url
  {
  }

  /** Narrowing the event list can only take deliveries away. */
  lemma FilterNarrows(teams: seq<Team>, teamId: int, event: string, p: Payload, serialised: string, fewer: seq<string>)
    requires 0 < teamId <= |teams| && teams[teamId - 1].webhooks.Some?
    requires forall e :: e in fewer ==> teams[teamId - 1].webhooks.value.events.None? || e in teams[teamId - 1].webhooks.value.events.value
    ensures var w := teams[teamId - 1].webhooks.value;
      var narrowed := teams[teamId - 1 := teams[teamId - 1].(webhooks := Some(w.(events := Some(fewer))))];
      Delivery(narrowed, teamId, event, p, serialised).Some? ==> Delivery(teams, teamId, event, p, serialised).Some?
  {
  }
}
