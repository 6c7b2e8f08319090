/**
 * One cron tick of the bot, end to end: check the current minute against the
 * schedule and, on a match, post every session of the time block to every
 * eligible team.
 *
 * The clock reading, the stored teams and the transport are parameters; the
 * timer itself is outside the model, and a tick is one call of `Tick`.
 */
module Bot {
  import opened Wrappers
  import opened Clock
  import opened Schedule
  import opened Alert
  import opened Dispatch

  /**
   * `sendAlert` with its calls of `postToSlack`: one batch of sends and one
   * logged count per post, in post order.
   */
  method DeliverAlert(timeblock: seq<Session>, message: Option<string>, teams: seq<Team>,
                      debug: bool, transport: (Team, Payload) -> Delivery)
    returns (batches: seq<seq<Attempt>>, counts: seq<nat>)
    ensures |batches| == |counts| == |SendAlert(timeblock, message)|
    ensures forall i :: 0 <= i < |batches| ==>
      batches[i] == Attempts(Recipients(teams, debug), SendAlert(timeblock, message)[i], transport)
    ensures forall i :: 0 <= i < |counts| ==> counts[i] == |Recipients(teams, debug)|
  {
    var posts := SendAlert(timeblock, message);
    batches, counts := [], [];
    var i := 0;
    while i < |posts|
      invariant 0 <= i <= |posts|
      invariant |batches| == |counts| == i
      invariant forall k :: 0 <= k < i ==>
        batches[k] == Attempts(Recipients(teams, debug), posts[k], transport)
      invariant forall k :: 0 <= k < i ==> counts[k] == |Recipients(teams, debug)|
    {
      var sent, count := PostToSlack(teams, debug, posts[i], transport);
      batches, counts := batches + [sent], counts + [count];
      i := i + 1;
    }
  }

  /**
   * One tick: on a hit, every session of the matched list is posted, in order,
   * to every eligible team; on a miss, nothing is sent.
   */
  method Tick(transcripts: Transcripts, now: Instant, teams: seq<Team>, debug: bool,
              transport: (Team, Payload) -> Delivery)
    returns (check: Check, batches: seq<seq<Attempt>>, counts: seq<nat>)
    requires ValidInstant(now)
    ensures check.Match? <==> NowKey(now) in transcripts
    ensures check.Match? ==> check.sessions == transcripts[NowKey(now)]
    ensures check.Heartbeat? ==> check.checked == StartOfMinute(now) && batches == [] && counts == []
    ensures check.Match? ==> |batches| == |counts| == |check.sessions|
    ensures check.Match? ==> forall i :: 0 <= i < |batches| ==>
      batches[i] == Attempts(Recipients(teams, debug),
                             Structured([RenderAttachment(check.sessions[i])]), transport)
    ensures forall i :: 0 <= i < |counts| ==> counts[i] == |Recipients(teams, debug)|
  {
    check := CheckTimeMatch(transcripts, now);
    if check.Match? {
      batches, counts := DeliverAlert(check.sessions, None, teams, debug, transport);
    } else {
      batches, counts := [], [];
    }
  }
}
