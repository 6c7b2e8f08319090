/**
 * Fan-out of one payload to the stored Slack teams (`postToSlack`) and the
 * onboarding message sent when a team installs the bot.
 *
 * The team store and the webhook transport are outside the model: the teams
 * are the list the store returns, and the transport is a function from a team
 * and a payload to that one delivery's outcome.
 */
module Dispatch {
  import opened Wrappers
  import opened Alert

  /** The team's `incoming_webhook` registration. */
  datatype Webhook = Webhook(url: string, channel: string)

  /** A stored team record; only its name and webhook matter here. */
  datatype Team = Team(id: string, name: string, incomingWebhook: Option<Webhook>)

  /** Outcome of one `sendWebhook` call. */
  datatype Delivery = Delivered | Failed(error: string)

  /** One send: to whom, what, and how it went. */
  datatype Attempt = Attempt(team: Team, payload: Payload, outcome: Delivery)

  /** The only team that receives messages in debug mode. */
  const DebugTeam: string := "OpenNews"

  /** The condition `postToSlack` tests for each team. */
  predicate Eligible(debug: bool, t: Team): (r: bool)
    ensures r ==> t.incomingWebhook.Some?
    ensures r && debug ==> t.name == DebugTeam
    ensures !debug && t.incomingWebhook.Some? ==> r
  {
    (!debug && t.incomingWebhook.Some?) ||
    (debug && t.name == DebugTeam && t.incomingWebhook.Some?)
  }

  /** The eligible teams, in store order. */
  function Recipients(teams: seq<Team>, debug: bool): (r: seq<Team>)
    ensures |r| <= |teams|
    ensures forall i :: 0 <= i < |r| ==> Eligible(debug, r[i])
  {
    if teams == [] then []
    else
      var init, last := teams[..|teams| - 1], teams[|teams| - 1];
      Recipients(init, debug) + (if Eligible(debug, last) then [last] else [])
  }

  /** The sends to the given recipients, in order, with the transport's outcomes. */
  function Attempts(recipients: seq<Team>, payload: Payload,
                    transport: (Team, Payload) -> Delivery): (r: seq<Attempt>)
    ensures |r| == |recipients|
    ensures forall i :: 0 <= i < |r| ==>
      r[i] == Attempt(recipients[i], payload, transport(recipients[i], payload))
  {
    seq(|recipients|, i requires 0 <= i < |recipients| =>
      Attempt(recipients[i], payload, transport(recipients[i], payload)))
  }

  /**
   * `postToSlack`: walk the stored teams, count every eligible one and send
   * to it. A failed send is only logged, so it neither stops the walk nor
   * lowers the count.
   */
  method PostToSlack(teams: seq<Team>, debug: bool, payload: Payload,
                     transport: (Team, Payload) -> Delivery)
    returns (attempts: seq<Attempt>, count: nat)
    ensures attempts == Attempts(Recipients(teams, debug), payload, transport)
    ensures count == |Recipients(teams, debug)|
  {
    attempts, count := [], 0;
    var i := 0;
    while i < |teams|
      invariant 0 <= i <= |teams|
      invariant attempts == Attempts(Recipients(teams[..i], debug), payload, transport)
      invariant count == |attempts|
    {
      var t := teams[i];
      assert teams[..i + 1][..i] == teams[..i];
      if Eligible(debug, t) {
        count := count + 1;
        attempts := attempts + [Attempt(t, payload, transport(t, payload))];
      }
      i := i + 1;
    }
    assert teams[..i] == teams;
  }

  /** The errors logged by the send callbacks, in send order. */
  function ErrorLog(attempts: seq<Attempt>): (log: seq<string>)
    ensures |log| <= |attempts|
    ensures (forall i :: 0 <= i < |attempts| ==> attempts[i].outcome.Delivered?) ==> log == []
  {
    if attempts == [] then []
    else
      var init, last := attempts[..|attempts| - 1], attempts[|attempts| - 1];
      ErrorLog(init) + (if last.outcome.Failed? then [last.outcome.error] else [])
  }

  /** The number of sends that went through. */
  function Successes(attempts: seq<Attempt>): nat {
    if attempts == [] then 0
    else
      var init, last := attempts[..|attempts| - 1], attempts[|attempts| - 1];
      Successes(init) + (if last.outcome.Delivered? then 1 else 0)
  }

  // ---------------------------------------------------------------------
  // Properties of the filter

  /** A team is sent to exactly when it is stored and eligible. */
  lemma {:induction false} RecipientsExact(teams: seq<Team>, debug: bool, t: Team)
    ensures t in Recipients(teams, debug) <==> t in teams && Eligible(debug, t)
  {
    if teams != [] {
      var init := teams[..|teams| - 1];
      RecipientsExact(init, debug, t);
      assert teams == init + [teams[|teams| - 1]];
    }
  }

  /** Outside debug mode the recipients are the teams with a webhook. */
  lemma NormalRecipients(teams: seq<Team>, t: Team)
    ensures t in Recipients(teams, false) <==> t in teams && t.incomingWebhook.Some?
  {
    RecipientsExact(teams, false, t);
  }

  /** In debug mode the recipients are the teams named OpenNews with a webhook. */
  lemma DebugRecipients(teams: seq<Team>, t: Team)
    ensures t in Recipients(teams, true) <==> t in teams && t.name == DebugTeam && t.incomingWebhook.Some?
  {
    RecipientsExact(teams, true, t);
  }

  /**
   * Debug mode only narrows the audience: its recipients are the normal
   * recipients, filtered again, in the same order.
   */
  lemma {:induction false} DebugNarrowsNormal(teams: seq<Team>)
    ensures Recipients(teams, true) == Recipients(Recipients(teams, false), true)
  {
    if teams != [] {
      var init, last := teams[..|teams| - 1], teams[|teams| - 1];
      DebugNarrowsNormal(init);
      var normal := Recipients(teams, false);
      if Eligible(false, last) {
        assert normal[..|normal| - 1] == Recipients(init, false);
      } else {
        assert normal == Recipients(init, false);
      }
    }
  }

  /** Every debug recipient is also a normal recipient. */
  lemma DebugSubsetOfNormal(teams: seq<Team>, t: Team)
    ensures t in Recipients(teams, true) ==> t in Recipients(teams, false)
  {
    RecipientsExact(teams, true, t);
    RecipientsExact(teams, false, t);
  }

  // ---------------------------------------------------------------------
  // Properties of the fan-out

  /**
   * The logged count is the number of sends attempted: every send either
   * went through or logged exactly one error.
   */
  lemma {:induction false} CountIsAttempts(attempts: seq<Attempt>)
    ensures |attempts| == Successes(attempts) + |ErrorLog(attempts)|
  {
    if attempts != [] {
      CountIsAttempts(attempts[..|attempts| - 1]);
    }
  }

  /**
   * Failures are isolated: whatever the transport does, every eligible team
   * gets its attempt, and the plain and the structured paths reach the same
   * teams in the same order.
   */
  lemma SameAudience(recipients: seq<Team>, p1: Payload, p2: Payload,
                     tr1: (Team, Payload) -> Delivery, tr2: (Team, Payload) -> Delivery, i: nat)
    requires i < |recipients|
    ensures |Attempts(recipients, p1, tr1)| == |Attempts(recipients, p2, tr2)| == |recipients|
    ensures Attempts(recipients, p1, tr1)[i].team == Attempts(recipients, p2, tr2)[i].team == recipients[i]
  {
  }

  /** If no send fails, the logged count is the number of teams reached. */
  lemma {:induction false} NoFailuresAllDelivered(attempts: seq<Attempt>)
    requires forall i :: 0 <= i < |attempts| ==> attempts[i].outcome.Delivered?
    ensures Successes(attempts) == |attempts| && ErrorLog(attempts) == []
  {
    if attempts != [] {
      NoFailuresAllDelivered(attempts[..|attempts| - 1]);
    }
  }

  // ---------------------------------------------------------------------
  // Onboarding

  const OnboardingText: string :=
    ":thumbsup: SRCCON Transcript Alerts are ready to roll! Each time a session with live transcription is about to begin, we'll post details and a link to the live transcript right here."

  /**
   * The `create_incoming_webhook` handler: the bot of the team that just
   * installed sends it the welcome text, with no debug filter and no error
   * callback.
   */
  function Onboard(team: Team, transport: (Team, Payload) -> Delivery): (a: Attempt)
    ensures a.team == team && a.payload.Plain? && a.payload.text == OnboardingText
    ensures a.outcome == transport(team, a.payload)
  {
    Attempt(team, Plain(OnboardingText), transport(team, Plain(OnboardingText)))
  }
}
