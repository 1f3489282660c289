/**
 What a job's row says about the run behind it, for every legal run of one job.
 */
module JobLaws {
  import opened Options
  import opened Platforms
  import opened JobMachine

  /**
   What can be told from a run alone: what the latest hand-over or settled poll said, the claims
   since the last retry, whether the job waits in the backlog, the latest hand-over's id and the
   offset last reported -- all since the job was created.
   */
  datatype Story = Story(verdict: Option<JobState>, claims: nat, waiting: bool, id: Option<string>, uploaded: nat)

  function Told(story: Story, a: Act): Story {
    match a
    case Create(_, _, scheduled) => Story(None, 0, scheduled, None, 0)
    case Release => story.(waiting := false)
    case Drop => story.(waiting := false)
    case Retry => story.(claims := 0)
    case Do(_, o) => ToldByStep(story, o)
    case Lose(_) => story
  }

  function ToldByStep(story: Story, o: Outcome): Story {
    match o
    case Claim => story.(claims := story.claims + 1)
    case Progress(uploaded) => story.(uploaded := uploaded)
    case Started(id, state, _) => story.(verdict := Some(state), id := Some(id))
    case Settles(state, _, _) => story.(verdict := Some(state))
    case _ => story
  }

  function StoryOf(tr: seq<Act>): Story {
    if tr == [] then Story(None, 0, false, None, 0) else Told(StoryOf(tr[..|tr| - 1]), tr[|tr| - 1])
  }

  /** The row, as far as it follows from that. */
  predicate Tells(row: Option<Job>, story: Story) {
    && (row.Some? && row.value.state == Published <==> story.verdict == Some(Published))
    && (row.Some? && row.value.state == Scheduled <==> story.waiting)
    && (row.Some? ==>
          && row.value.attempts == story.claims
          && row.value.externalId == story.id && row.value.uploaded == story.uploaded)
  }

  lemma StepTells(x: Solo, k: nat, o: Outcome, story: Story)
    requires Sound(x) && Can(x, Do(k, o)) && Tells(x.row, story)
    ensures Tells(Next(x, Do(k, o)).row, ToldByStep(story, o))
  {
    DoOnOnlyItem(x, k, o);
  }

  lemma ActTells(x: Solo, a: Act, story: Story)
    requires Sound(x) && Can(x, a) && Tells(x.row, story)
    ensures Tells(Next(x, a).row, Told(story, a))
  {
    if a.Do? {
      StepTells(x, a.k, a.outcome, story);
    }
  }

  /**
   After every run: a job is PUBLISHED exactly when the latest hand-over or settled poll said so,
   and SCHEDULED exactly while it waits in the backlog; its attempts are the claims since its last
   retry, its external id the latest hand-over's, its offset the last reported.
   */
  lemma {:induction false} RowTellsTheRun(tr: seq<Act>)
    requires Legal(tr)
    ensures Tells(Reached(tr).row, StoryOf(tr))
    decreases |tr|
  {
    if tr != [] {
      var before := tr[..|tr| - 1];
      RowTellsTheRun(before);
      RunKeepsSound(before);
      ActTells(Reached(before), tr[|tr| - 1], StoryOf(before));
    }
  }

  /** Nothing applies to a published job without work. */
  lemma PublishedIsFinal(x: Solo, a: Act)
    requires x.items == [] && x.row.Some? && x.row.value.state == Published
    ensures !Can(x, a)
  {
  }

  /** What a settled poll says is what the row then says, and for good if it said PUBLISHED. */
  lemma SettledPollIsRecorded(tr: seq<Act>, k: nat, state: JobState, url: Option<string>, error: Option<string>, a: Act)
    requires Legal(tr) && Can(Reached(tr), Do(k, Settles(state, url, error)))
    ensures var was, x := Reached(tr).row, Next(Reached(tr), Do(k, Settles(state, url, error)));
            && was.Some? && x.row.Some? && x.items == [] && x.row.value.state == state && x.row.value.error == error
            && x.row.value.url == (if url == None || url == Some("") then was.value.url else url)
            && (state == Published ==> !Can(x, a))
  {
    RunKeepsSound(tr);
    SettlesRecords(Reached(tr), k, state, url, error);
    if state == Published {
      PublishedIsFinal(Next(Reached(tr), Do(k, Settles(state, url, error))), a);
    }
  }

  lemma SettlesRecords(x: Solo, k: nat, state: JobState, url: Option<string>, error: Option<string>)
    requires Sound(x) && Can(x, Do(k, Settles(state, url, error)))
    ensures x.row.Some?
    ensures Next(x, Do(k, Settles(state, url, error)))
            == Solo(Some(x.row.value.(state := state, error := error,
                                      url := if url == None || url == Some("") then x.row.value.url else url)), [])
  {
    DoOnOnlyItem(x, k, Settles(state, url, error));
  }
}
