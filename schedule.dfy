/**
 * The schedule store and the once-a-minute check against it.
 *
 * `transcripts` maps minute keys to the ordered list of sessions that start
 * then. It is written once as an object literal whose keys are computed by
 * `Key`; the cron tick looks the current minute up and either hands the list
 * to the alert renderer or logs a heartbeat.
 */
module Schedule {
  import opened Wrappers
  import opened Clock

  /** One session record of the schedule data. */
  datatype Session = Session(day: string, description: string, facilitators: string,
                             id: string, length: string, room: string, time: string,
                             title: string)

  /** The `transcripts` object: minute key to sessions in presentation order. */
  type Transcripts = map<string, seq<Session>>

  /** One `[key(when)]: sessions` line of the object literal. */
  datatype Entry = Entry(when: string, sessions: seq<Session>)

  /** The computed keys of the entries. */
  function KeysOf(entries: seq<Entry>): set<string> {
    if entries == [] then {}
    else KeysOf(entries[..|entries| - 1]) + {Key(entries[|entries| - 1].when)}
  }

  /**
   * Evaluates the object literal: entries are added in order and a later
   * entry with the same computed key replaces an earlier one.
   */
  function BuildTranscripts(entries: seq<Entry>): (r: Transcripts)
    ensures r.Keys == KeysOf(entries)
    ensures entries != [] ==> r[Key(entries[|entries| - 1].when)] == entries[|entries| - 1].sessions
  {
    if entries == [] then map[]
    else
      var init, last := entries[..|entries| - 1], entries[|entries| - 1];
      var r := BuildTranscripts(init)[Key(last.when) := last.sessions];
      r
  }

  /** An entry whose key no later entry repeats is what its key looks up. */
  lemma {:induction false} EntryLookup(entries: seq<Entry>, i: nat)
    requires i < |entries|
    requires forall j :: i < j < |entries| ==> Key(entries[j].when) != Key(entries[i].when)
    ensures Key(entries[i].when) in BuildTranscripts(entries)
    ensures BuildTranscripts(entries)[Key(entries[i].when)] == entries[i].sessions
  {
    if i < |entries| - 1 {
      var init := entries[..|entries| - 1];
      assert init[i] == entries[i];
      forall j | i < j < |init| ensures Key(init[j].when) != Key(init[i].when) {
        assert init[j] == entries[j];
      }
      EntryLookup(init, i);
    }
  }

  /** Result of one cron tick. */
  datatype Check =
    | Match(sessions: seq<Session>)   // `sendAlert(match)` is called with this list
    | Heartbeat(checked: Instant)     // `Checked at <checked>` is logged

  /**
   * `checkTimeMatch`: look the current minute up. A key that is present always
   * alerts, even with an empty list, since any array is truthy.
   */
  function CheckTimeMatch(transcripts: Transcripts, now: Instant): (r: Check)
    requires ValidInstant(now)
    ensures r.Match? <==> NowKey(now) in transcripts
    ensures r.Match? ==> r.sessions == transcripts[NowKey(now)]
    ensures r.Heartbeat? ==> r.checked == StartOfMinute(now) && r.checked.second == 0
  {
    var key := NowKey(now);
    if key in transcripts then Match(transcripts[key]) else Heartbeat(StartOfMinute(now))
  }

  /** Readings within the same minute give the same outcome, heartbeat included. */
  lemma {:induction false} SameMinuteSameCheck(transcripts: Transcripts, t1: Instant, t2: Instant)
    requires ValidInstant(t1) && ValidInstant(t2) && MinuteOf(t1) == MinuteOf(t2)
    ensures CheckTimeMatch(transcripts, t1) == CheckTimeMatch(transcripts, t2)
  {
    SameKeyIffSameMinute(t1, t2);
  }

  /**
   * Checking at the minute an entry was authored for alerts with exactly that
   * entry's sessions, in their listed order.
   */
  lemma {:induction false} ConfiguredMinuteAlerts(entries: seq<Entry>, i: nat, now: Instant)
    requires ValidInstant(now) && i < |entries|
    requires ParseKey(entries[i].when) == Some(MinuteOf(now))
    requires forall j :: i < j < |entries| ==> Key(entries[j].when) != Key(entries[i].when)
    ensures CheckTimeMatch(BuildTranscripts(entries), now) == Match(entries[i].sessions)
  {
    KeyMatchesNow(entries[i].when, now);
    EntryLookup(entries, i);
  }

  /**
   * Checking at a minute no entry was authored for only logs a heartbeat: a
   * reading one minute off a configured time never matches it.
   */
  lemma {:induction false} UnconfiguredMinuteIsHeartbeat(entries: seq<Entry>, now: Instant)
    requires ValidInstant(now)
    requires forall i :: 0 <= i < |entries| ==> ParseKey(entries[i].when) != Some(MinuteOf(now))
    ensures CheckTimeMatch(BuildTranscripts(entries), now) == Heartbeat(StartOfMinute(now))
  {
    if entries != [] {
      var init := entries[..|entries| - 1];
      forall i | 0 <= i < |init| ensures ParseKey(init[i].when) != Some(MinuteOf(now)) {
        assert init[i] == entries[i];
      }
      UnconfiguredMinuteIsHeartbeat(init, now);
      KeyMatchesNow(entries[|entries| - 1].when, now);
    }
  }

  // ---------------------------------------------------------------------
  // Sample data: the first two time blocks of the 2017 schedule, with
  // descriptions shortened.

  const Thursday1000: seq<Session> := [
    Session("Thursday", "How people come to change their minds, and how to make room for it.",
            "Marie Connelly, B Cordelia Yu", "change-our-minds", "75 minutes", "Johnson",
            "10-11:15am", "How do we change our minds anyway?"),
    Session("Thursday", "Solutions to common problems between you and a calmer workday.",
            "Hannah Birch", "hamilton-or-burr", "75 minutes", "Ski-U-Mah", "10-11:15am",
            "Are you Hamilton or Burr? How to benignly manipulate the people around you"),
    Session("Thursday", "Practical approaches newsrooms take to cover democracy.",
            "Aaron Williams, Steven Rich", "practical-software-democracy", "75 minutes",
            "Thomas Swain", "10-11:15am",
            "Practical approaches for creating software to cover democracy")
  ]

  const Thursday1145: seq<Session> := [
    Session("Thursday", "How social video uses typography.", "Dolly Li",
            "typography-social-video", "75 minutes", "Johnson", "11:45am-1pm",
            "Using and Abusing Typography: How Social Video Is Playing Games With Your Heart"),
    Session("Thursday", "Games as a way through roadblocks in small newsrooms.",
            "Sara Konrad Baranowski, Andrea Suozzo", "navigate-roadblocks-games", "75 minutes",
            "Ski-U-Mah", "11:45am-1pm",
            "Candyland, Catan and Codenames — Oh My! Navigate Roadblocks in Small Newsrooms With Games"),
    Session("Thursday", "Designing and iterating news products people pay for.",
            "Matt Kiser, Kelsey Scherer", "news-products", "75 minutes", "Thomas Swain",
            "11:45am-1pm",
            "News products: How to design, launch, and iterate something worth paying for")
  ]

  const SampleEntries: seq<Entry> := [
    Entry("2017-08-03 10:00", Thursday1000),
    Entry("2017-08-03 11:45", Thursday1145)
  ]

  lemma Format1000()
    ensures Format(Minute(2017, 8, 3, 10, 0)) == "2017-08-03 10:00"
  {
    assert Pad2(20) == "20" && Pad2(17) == "17";
    assert Pad2(8) == "08" && Pad2(3) == "03" && Pad2(10) == "10" && Pad2(0) == "00";
    assert Pad4(2017) == "2017";
  }

  lemma Format1145()
    ensures Format(Minute(2017, 8, 3, 11, 45)) == "2017-08-03 11:45"
  {
    assert Pad2(20) == "20" && Pad2(17) == "17";
    assert Pad2(8) == "08" && Pad2(3) == "03" && Pad2(11) == "11" && Pad2(45) == "45";
    assert Pad4(2017) == "2017";
  }

  /** The two authored date-times of the sample parse to the intended minutes. */
  lemma SampleEntriesParse()
    ensures ParseKey(SampleEntries[0].when) == Some(Minute(2017, 8, 3, 10, 0))
    ensures ParseKey(SampleEntries[1].when) == Some(Minute(2017, 8, 3, 11, 45))
  {
    Format1000();
    Format1145();
    ParseFormat(Minute(2017, 8, 3, 10, 0));
    ParseFormat(Minute(2017, 8, 3, 11, 45));
  }

  /** At 10:00:00 on 3 August 2017 the three 10:00 sessions are announced in order. */
  lemma SampleScenarioHit()
    ensures CheckTimeMatch(BuildTranscripts(SampleEntries), Instant(2017, 8, 3, 10, 0, 0, 0))
            == Match(Thursday1000)
  {
    SampleEntriesParse();
    FormatInjective(Minute(2017, 8, 3, 10, 0), Minute(2017, 8, 3, 11, 45));
    ConfiguredMinuteAlerts(SampleEntries, 0, Instant(2017, 8, 3, 10, 0, 0, 0));
  }

  /** A reading at 10:01:00 the same day only logs a heartbeat. */
  lemma SampleScenarioMiss()
    ensures CheckTimeMatch(BuildTranscripts(SampleEntries), Instant(2017, 8, 3, 10, 1, 0, 0))
            == Heartbeat(Instant(2017, 8, 3, 10, 1, 0, 0))
  {
    SampleEntriesParse();
    UnconfiguredMinuteIsHeartbeat(SampleEntries, Instant(2017, 8, 3, 10, 1, 0, 0));
  }
}
