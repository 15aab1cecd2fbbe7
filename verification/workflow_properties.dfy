/** What a run promises: where it can fail, what it processes, which record
    it writes and in what order its side effects happen. */
module WorkflowProperties {
  import opened Results
  import opened Text
  import opened Listing
  import opened Workflow

  /** Reference: the per-story summaries, in story order. */
  function Summaries(stories: seq<Story>, sv: Services): seq<string>
  {
    seq(|stories|, i requires 0 <= i < |stories| => sv.storySummary(stories[i]).GetOr(""))
  }

  /** The shape of the per-story part of a trace: for story `i`, the
      content fetch, the summarise call on that content, then the pause. */
  ghost predicate StoryTraceOf(t: seq<Event>, stories: seq<Story>, sv: Services, maxTokens: int, pause: nat)
  {
    && |t| == 3 * |stories|
    && forall i :: 0 <= i < |stories| ==>
         && sv.storyContent(stories[i]).Some?
         && t[3 * i] == FetchStory(stories[i], maxTokens)
         && t[3 * i + 1] == SummarizeStory(stories[i], sv.storyContent(stories[i]).value)
         && t[3 * i + 2] == Pause(pause)
  }

  /** One turn of the loop when the first story's two steps succeed: its
      three calls come first, and the rest of the loop decides the outcome. */
  lemma StoryLoopStep(stories: seq<Story>, sv: Services, maxTokens: int, pause: nat)
    requires |stories| > 0
    requires sv.storyContent(stories[0]).Some? && sv.storySummary(stories[0]).Some?
    ensures var r := StoryLoop(stories, sv, maxTokens, pause);
      var rest := StoryLoop(stories[1..], sv, maxTokens, pause);
      && r.trace ==
           [FetchStory(stories[0], maxTokens),
            SummarizeStory(stories[0], sv.storyContent(stories[0]).value),
            Pause(pause)] + rest.trace
      && r.LoopFailed? == rest.LoopFailed?
      && (rest.LoopFailed? ==> r.failure == rest.failure)
  {
    var st := stories[0];
    var head := [FetchStory(st, maxTokens), SummarizeStory(st, sv.storyContent(st).value), Pause(pause)];
    assert [FetchStory(st, maxTokens)] + [SummarizeStory(st, sv.storyContent(st).value)] + [Pause(pause)] == head;
  }

  /** A loop over stories that all succeed makes three calls per story, in
      story order, and returns the summaries in story order. */
  lemma {:induction false} StoryLoopTrace(stories: seq<Story>, sv: Services, maxTokens: int, pause: nat)
    requires AllStoriesSucceed(stories, sv)
    ensures StoryLoop(stories, sv, maxTokens, pause).LoopDone?
    ensures StoryTraceOf(StoryLoop(stories, sv, maxTokens, pause).trace, stories, sv, maxTokens, pause)
    ensures StoryLoop(stories, sv, maxTokens, pause).summaries == Summaries(stories, sv)
  {
    var r := StoryLoop(stories, sv, maxTokens, pause);
    if |stories| > 0 {
      var tail := stories[1..];
      assert AllStoriesSucceed(tail, sv) by {
        forall i | 0 <= i < |tail|
          ensures sv.storyContent(tail[i]).Some? && sv.storySummary(tail[i]).Some?
        {
          assert tail[i] == stories[i + 1];
        }
      }
      StoryLoopTrace(tail, sv, maxTokens, pause);
      StoryLoopStep(stories, sv, maxTokens, pause);
      StoryTraceCons(stories, sv, maxTokens, pause, StoryLoop(tail, sv, maxTokens, pause).trace);
    }
  }

  /** Prepending one story's three calls to the trace of the remaining
      stories gives the trace of all of them. */
  lemma StoryTraceCons(stories: seq<Story>, sv: Services, maxTokens: int, pause: nat, rest: seq<Event>)
    requires |stories| > 0 && sv.storyContent(stories[0]).Some?
    requires StoryTraceOf(rest, stories[1..], sv, maxTokens, pause)
    ensures StoryTraceOf(
      [FetchStory(stories[0], maxTokens),
       SummarizeStory(stories[0], sv.storyContent(stories[0]).value),
       Pause(pause)] + rest,
      stories, sv, maxTokens, pause)
  {
    var t := [FetchStory(stories[0], maxTokens),
              SummarizeStory(stories[0], sv.storyContent(stories[0]).value),
              Pause(pause)] + rest;
    var tail := stories[1..];
    forall i | 1 <= i < |stories|
      ensures sv.storyContent(stories[i]).Some?
      ensures t[3 * i] == FetchStory(stories[i], maxTokens)
      ensures t[3 * i + 1] == SummarizeStory(stories[i], sv.storyContent(stories[i]).value)
      ensures t[3 * i + 2] == Pause(pause)
    {
      assert tail[i - 1] == stories[i];
      assert t[3 * i] == rest[3 * (i - 1)];
      assert t[3 * i + 1] == rest[3 * (i - 1) + 1];
      assert t[3 * i + 2] == rest[3 * (i - 1) + 2];
    }
  }

  /** The trace of a loop stopped at story `j`: three calls for each
      earlier story, then story `j`'s fetch and, when its content arrived,
      its summarise call, and nothing after. */
  ghost predicate StoppedAt(t: seq<Event>, stories: seq<Story>, sv: Services, maxTokens: int, pause: nat, j: nat)
    requires j < |stories|
  {
    && |t| == 3 * j + (if sv.storyContent(stories[j]).None? then 1 else 2)
    && StoryTraceOf(t[..3 * j], stories[..j], sv, maxTokens, pause)
    && t[3 * j] == FetchStory(stories[j], maxTokens)
    && (sv.storyContent(stories[j]).Some? ==>
          t[3 * j + 1] == SummarizeStory(stories[j], sv.storyContent(stories[j]).value))
  }

  /** Stopping at story `j - 1` of the remaining stories, after the first
      story's three calls, is stopping at story `j`. */
  lemma StoppedAtCons(stories: seq<Story>, sv: Services, maxTokens: int, pause: nat, j: nat, rest: seq<Event>)
    requires 0 < j < |stories| && sv.storyContent(stories[0]).Some?
    requires StoppedAt(rest, stories[1..], sv, maxTokens, pause, j - 1)
    ensures StoppedAt(
      [FetchStory(stories[0], maxTokens),
       SummarizeStory(stories[0], sv.storyContent(stories[0]).value),
       Pause(pause)] + rest,
      stories, sv, maxTokens, pause, j)
  {
    var head := [FetchStory(stories[0], maxTokens),
                 SummarizeStory(stories[0], sv.storyContent(stories[0]).value),
                 Pause(pause)];
    StoryTracePrefixCons(stories, sv, maxTokens, pause, j, rest);
    assert stories[1..][j - 1] == stories[j];
    AppendAt(head, rest, 3 * (j - 1));
    if sv.storyContent(stories[j]).Some? {
      AppendAt(head, rest, 3 * (j - 1) + 1);
    }
  }

  /** The first `j` stories' block of a trace is the first story's three
      calls followed by the next `j - 1` stories' block. */
  lemma StoryTracePrefixCons(stories: seq<Story>, sv: Services, maxTokens: int, pause: nat, j: nat, rest: seq<Event>)
    requires 0 < j <= |stories| && sv.storyContent(stories[0]).Some? && 3 * (j - 1) <= |rest|
    requires StoryTraceOf(rest[..3 * (j - 1)], stories[1..][..j - 1], sv, maxTokens, pause)
    ensures StoryTraceOf(
      ([FetchStory(stories[0], maxTokens),
        SummarizeStory(stories[0], sv.storyContent(stories[0]).value),
        Pause(pause)] + rest)[..3 * j],
      stories[..j], sv, maxTokens, pause)
  {
    var head := [FetchStory(stories[0], maxTokens),
                 SummarizeStory(stories[0], sv.storyContent(stories[0]).value),
                 Pause(pause)];
    var first := stories[..j];
    var done := rest[..3 * (j - 1)];
    assert first[0] == stories[0];
    assert first[1..] == stories[1..][..j - 1];
    StoryTraceCons(first, sv, maxTokens, pause, done);
    assert (head + rest)[..3 * j] == head + done;
  }

  /** Indexing and cutting `head + rest` at a position inside `rest`. */
  lemma AppendAt<T>(head: seq<T>, rest: seq<T>, m: nat)
    requires m < |rest|
    ensures (head + rest)[..|head| + m] == head + rest[..m]
    ensures (head + rest)[|head| + m] == rest[m]
  {
  }

  /** Success of the first `j` stories is success of the first story and
      of the `j - 1` stories after it. */
  lemma SucceedSplit(stories: seq<Story>, sv: Services, j: nat)
    requires 0 < j <= |stories|
    requires AllStoriesSucceed(stories[..j], sv)
    ensures sv.storyContent(stories[0]).Some? && sv.storySummary(stories[0]).Some?
    ensures AllStoriesSucceed(stories[1..][..j - 1], sv)
  {
    var first := stories[..j];
    var done := stories[1..][..j - 1];
    assert first[0] == stories[0];
    forall i | 0 <= i < |done|
      ensures sv.storyContent(done[i]).Some? && sv.storySummary(done[i]).Some?
    {
      assert done[i] == first[i + 1];
    }
  }

  /** The loop stops at the first story whose content or summary step
      fails: the stories before it made their three calls each, in order,
      then that story's fetch and, when the content arrived, its summarise
      call; that step is the failure, and nothing is called after it. */
  lemma {:induction false} StoryLoopStopsAtFirstFailure(
    stories: seq<Story>, sv: Services, maxTokens: int, pause: nat, j: nat)
    requires j < |stories|
    requires AllStoriesSucceed(stories[..j], sv)
    requires sv.storyContent(stories[j]).None? || sv.storySummary(stories[j]).None?
    ensures var r := StoryLoop(stories, sv, maxTokens, pause);
      && r.LoopFailed?
      && r.failure == (if sv.storyContent(stories[j]).None?
                       then StepFailed(GetStoryStep(stories[j]))
                       else StepFailed(SummarizeStep(stories[j])))
      && StoppedAt(r.trace, stories, sv, maxTokens, pause, j)
  {
    var r := StoryLoop(stories, sv, maxTokens, pause);
    if j == 0 {
      assert r.trace[..0] == [];
    } else {
      SucceedSplit(stories, sv, j);
      var tail := stories[1..];
      assert tail[j - 1] == stories[j];
      StoryLoopStopsAtFirstFailure(tail, sv, maxTokens, pause, j - 1);
      StoryLoopStep(stories, sv, maxTokens, pause);
      StoppedAtCons(stories, sv, maxTokens, pause, j, StoryLoop(tail, sv, maxTokens, pause).trace);
    }
  }

  /** An unregistered source fails the run before any call; it is the only
      way to get that failure. */
  lemma RunUnknownSource(p: Params, s: Settings, clock: Clock, sv: Services)
    ensures var source := Resolve(p, s, clock).source;
      (Run(p, s, clock, sv).Failed? && Run(p, s, clock, sv).failure.UnknownSource?)
      <==> source !in sv.fetchers
    ensures var source := Resolve(p, s, clock).source;
      source !in sv.fetchers ==> Run(p, s, clock, sv) == Failed(UnknownSource(source), [])
  {
    var c := Resolve(p, s, clock);
    if c.source in sv.fetchers && sv.topStories.Some? && |sv.topStories.value| > 0 {
      var stories := FirstStories(sv.topStories.value);
      var loop := StoryLoop(stories, sv, c.maxTokens, c.pause);
      if loop.LoopDone? {
        PublishNeverUnknownSource(c, stories, loop.summaries, sv);
      }
    }
  }

  lemma PublishNeverUnknownSource(c: Context, stories: seq<Story>, summaries: seq<string>, sv: Services)
    ensures var o := Publish(c, stories, summaries, sv); o.Failed? ==> o.failure.StepFailed?
  {
  }

  /** A scheduled run with an empty payload and no environment name works
      on the clock's date for the `hacker-news` source in `production`: it
      fails up front when that source is not registered, and otherwise a
      completed run saves its record under
      `content:production:hacker-news:{clock date}`. */
  lemma RunDefaults(title: string, maxTokens: Option<int>, clock: Clock, sv: Services)
    ensures var r := Run(Params(None, None), Settings(None, maxTokens, title), clock, sv);
      && (DefaultSource !in sv.fetchers ==> r == Failed(UnknownSource("hacker-news"), []))
      && (r.Completed? ==>
            && r.record.date == clock.date
            && r.record.source == "hacker-news"
            && r.trace[|r.trace| - 1].key == "content:production:hacker-news:" + clock.date
            && r.record.audio == AudioKey("production", "hacker-news", clock.date))
  {
    var p := Params(None, None);
    var s := Settings(None, maxTokens, title);
    DefaultContext(title, maxTokens, clock);
    RunUnknownSource(p, s, clock, sv);
    var r := Run(p, s, clock, sv);
    if r.Completed? {
      RunCompletedRecord(p, s, clock, sv);
      RunRecordWriteIsLastAndGuarded(p, s, clock, sv);
    }
  }

  /** With an empty payload and no environment name, the run's context is
      `production`, `hacker-news` and the clock's date, and the record key
      is `content:production:hacker-news:{date}`. */
  lemma DefaultContext(title: string, maxTokens: Option<int>, clock: Clock)
    ensures var c := Resolve(Params(None, None), Settings(None, maxTokens, title), clock);
      && c.env == "production" && c.source == "hacker-news" && c.today == clock.date
      && ContentKey(c.env, c.source, c.today) == "content:production:hacker-news:" + clock.date
  {
    var c := Resolve(Params(None, None), Settings(None, maxTokens, title), clock);
    assert c.env == DefaultEnv && c.source == DefaultSource && c.today == clock.date;
  }

  /** A completed run's record carries the run's date, source and audio key. */
  lemma RunCompletedRecord(p: Params, s: Settings, clock: Clock, sv: Services)
    requires Run(p, s, clock, sv).Completed?
    ensures var c := Resolve(p, s, clock);
      var rec := Run(p, s, clock, sv).record;
      rec.date == c.today && rec.source == c.source && rec.audio == AudioKey(c.env, c.source, c.today)
  {
    var c := Resolve(p, s, clock);
    RunReachesPublish(p, s, clock, sv);
    var stories := FirstStories(sv.topStories.value);
    var loop := StoryLoop(stories, sv, c.maxTokens, c.pause);
    PublishCompleted(c, stories, loop.summaries, sv);
  }

  /** With a registered source, an empty listing fails the run right after
      the listing call and before any story, summary, audio or record call;
      it is the only way to get that failure. */
  lemma RunNoStories(p: Params, s: Settings, clock: Clock, sv: Services)
    requires Resolve(p, s, clock).source in sv.fetchers
    ensures (Run(p, s, clock, sv).Failed? && Run(p, s, clock, sv).failure == NoStories)
      <==> sv.topStories == Some([])
    ensures sv.topStories == Some([]) ==>
      Run(p, s, clock, sv).trace == [ListStories(Resolve(p, s, clock).today)]
  {
    var c := Resolve(p, s, clock);
    if sv.topStories.Some? && |sv.topStories.value| > 0 {
      var stories := FirstStories(sv.topStories.value);
      var loop := StoryLoop(stories, sv, c.maxTokens, c.pause);
      if loop.LoopDone? {
        PublishNeverUnknownSource(c, stories, loop.summaries, sv);
      }
    }
  }

  /** The part of a completed run's trace after the per-story loop. */
  function PublishTrace(c: Context, prompt: string, podcast: string, size: nat,
                        head: Option<nat>, record: RunRecord): seq<Event>
  {
    var audioKey := AudioKey(c.env, c.source, c.today);
    [ GeneratePodcast(prompt, c.maxTokens), Pause(c.pause),
      GenerateBlog(prompt, c.maxTokens), Pause(c.pause),
      GenerateIntro(podcast),
      Synthesize(podcast), PutAudio(audioKey, size), HeadAudio(audioKey, head),
      PutRecord(ContentKey(c.env, c.source, c.today), record) ]
  }

  /** The tail of a run after its story loop completes: three generations,
      the verified upload and the record write, in that order. */
  lemma PublishCompleted(c: Context, stories: seq<Story>, summaries: seq<string>, sv: Services)
    requires Publish(c, stories, summaries, sv).Completed?
    ensures sv.podcast.Some? && sv.blog.Some? && sv.intro.Some? && sv.audio.Some?
    ensures sv.audioStored && sv.recordStored
    ensures sv.head.Some? && sv.head.value >= sv.audio.value
    ensures var o := Publish(c, stories, summaries, sv);
      && o.record == RunRecord(
           c.today, c.title + " " + c.today, c.source, stories,
           sv.podcast.value, sv.blog.value, sv.intro.value,
           AudioKey(c.env, c.source, c.today), c.now)
      && o.trace == PublishTrace(c, Join(summaries, Separator), sv.podcast.value,
                                 sv.audio.value, sv.head, o.record)
  {
  }

  /** A completed run processed exactly the first `min(n, 10)` listed
      stories in listed order, summarised each, fed the summaries joined by
      the separator to both the podcast and the blog prompt, fed the
      podcast script to the intro prompt and to speech synthesis, and wrote
      the record last, after a verified upload, with fields drawn from the
      earlier steps; its title and timestamp are the resolved context's,
      which `Resolve` ties to the configured title and the clock. */
  lemma RunCompleted(p: Params, s: Settings, clock: Clock, sv: Services)
    requires Run(p, s, clock, sv).Completed?
    ensures var c := Resolve(p, s, clock);
      var r := Run(p, s, clock, sv);
      && c.source in sv.fetchers
      && sv.topStories.Some? && |sv.topStories.value| > 0
      && var listed := sv.topStories.value;
      && var stories := listed[..Min(|listed|, MaxStories)];
      && 1 <= |stories| <= MaxStories
      && AllStoriesSucceed(stories, sv)
      && sv.podcast.Some? && sv.blog.Some? && sv.intro.Some? && sv.audio.Some?
      && sv.head.Some? && sv.head.value >= sv.audio.value
      && r.record == RunRecord(
           c.today, c.title + " " + c.today, c.source, stories,
           sv.podcast.value, sv.blog.value, sv.intro.value,
           AudioKey(c.env, c.source, c.today), c.now)
      && |r.trace| == 1 + 3 * |stories| + 9
      && r.trace[0] == ListStories(c.today)
      && StoryTraceOf(r.trace[1..1 + 3 * |stories|], stories, sv, c.maxTokens, c.pause)
      && r.trace[1 + 3 * |stories|..] == PublishTrace(
           c, Join(Summaries(stories, sv), Separator), sv.podcast.value,
           sv.audio.value, sv.head, r.record)
  {
    var c := Resolve(p, s, clock);
    var r := Run(p, s, clock, sv);
    RunReachesPublish(p, s, clock, sv);
    CompletedAfterLoop(c, sv.topStories.value, sv, r);
  }

  /** A completed run got past the source lookup, the listing and the story
      loop, and is the listing call followed by the loop's calls in front of
      the publication phase. */
  lemma RunReachesPublish(p: Params, s: Settings, clock: Clock, sv: Services)
    requires Run(p, s, clock, sv).Completed?
    ensures var c := Resolve(p, s, clock);
      && c.source in sv.fetchers
      && sv.topStories.Some? && |sv.topStories.value| > 0
      && var stories := FirstStories(sv.topStories.value);
      && var loop := StoryLoop(stories, sv, c.maxTokens, c.pause);
      && loop.LoopDone?
      && Run(p, s, clock, sv) ==
           Prepend([ListStories(c.today)] + loop.trace, Publish(c, stories, loop.summaries, sv))
  {
  }

  /** The shape of a completed run once its source and listing are known:
      the listing call, three calls per processed story, then the
      publication phase, whose record lists the processed stories. */
  lemma CompletedAfterLoop(c: Context, listed: seq<Story>, sv: Services, r: RunOutcome)
    requires |listed| > 0
    requires var stories := FirstStories(listed);
      var loop := StoryLoop(stories, sv, c.maxTokens, c.pause);
      && loop.LoopDone?
      && r == Prepend([ListStories(c.today)] + loop.trace, Publish(c, stories, loop.summaries, sv))
      && r.Completed?
    ensures var stories := listed[..Min(|listed|, MaxStories)];
      && 1 <= |stories| <= MaxStories
      && AllStoriesSucceed(stories, sv)
      && sv.podcast.Some? && sv.blog.Some? && sv.intro.Some? && sv.audio.Some?
      && sv.head.Some? && sv.head.value >= sv.audio.value
      && r.record == RunRecord(
           c.today, c.title + " " + c.today, c.source, stories,
           sv.podcast.value, sv.blog.value, sv.intro.value,
           AudioKey(c.env, c.source, c.today), c.now)
      && |r.trace| == 1 + 3 * |stories| + 9
      && r.trace[0] == ListStories(c.today)
      && StoryTraceOf(r.trace[1..1 + 3 * |stories|], stories, sv, c.maxTokens, c.pause)
      && r.trace[1 + 3 * |stories|..] == PublishTrace(
           c, Join(Summaries(stories, sv), Separator), sv.podcast.value,
           sv.audio.value, sv.head, r.record)
  {
    var stories := FirstStories(listed);
    assert stories == listed[..Min(|listed|, MaxStories)];
    var loop := StoryLoop(stories, sv, c.maxTokens, c.pause);
    StoryLoopTrace(stories, sv, c.maxTokens, c.pause);
    var o := Publish(c, stories, loop.summaries, sv);
    PublishCompleted(c, stories, loop.summaries, sv);
    var t0 := [ListStories(c.today)];
    assert r.trace == t0 + loop.trace + o.trace;
    assert r.trace[1..1 + 3 * |stories|] == loop.trace;
    assert r.trace[1 + 3 * |stories|..] == o.trace;
  }

  /** No trace event is a record write. */
  ghost predicate NoRecordWrite(t: seq<Event>) {
    forall e :: e in t ==> !e.PutRecord?
  }

  /** Every record write in a trace is its last event, directly follows an
      upload and a metadata read of the same key that reported a size at
      least the uploaded one, and points the record at that key. */
  ghost predicate RecordWriteGuarded(t: seq<Event>) {
    forall k :: 0 <= k < |t| && t[k].PutRecord? ==>
      && k == |t| - 1
      && k >= 2
      && t[k - 2].PutAudio?
      && t[k - 1].HeadAudio?
      && t[k - 1].key == t[k - 2].key
      && t[k - 1].reported.Some? && t[k - 1].reported.value >= t[k - 2].size
      && t[k].record.audio == t[k - 2].key
  }

  /** Calls without a record write in front of a guarded trace keep it guarded. */
  lemma GuardedAfterPrefix(pre: seq<Event>, t: seq<Event>)
    requires NoRecordWrite(pre) && RecordWriteGuarded(t)
    ensures RecordWriteGuarded(pre + t)
  {
    var u := pre + t;
    forall k | 0 <= k < |u| && u[k].PutRecord?
      ensures k == |u| - 1 && k >= 2 && u[k - 2].PutAudio? && u[k - 1].HeadAudio?
      ensures u[k - 1].key == u[k - 2].key
      ensures u[k - 1].reported.Some? && u[k - 1].reported.value >= u[k - 2].size
      ensures u[k].record.audio == u[k - 2].key
    {
      if k < |pre| {
        assert false;
      } else {
        var j := k - |pre|;
        assert u[k] == t[j];
        assert t[j].PutRecord?;
        assert u[k - 1] == t[j - 1] && u[k - 2] == t[j - 2];
      }
    }
  }

  /** The tail of a completed run is guarded when the read-back size covers
      the upload and the record points at the uploaded key. */
  lemma PublishTraceGuarded(c: Context, prompt: string, podcast: string, size: nat,
                            head: Option<nat>, record: RunRecord)
    requires head.Some? && head.value >= size
    requires record.audio == AudioKey(c.env, c.source, c.today)
    ensures RecordWriteGuarded(PublishTrace(c, prompt, podcast, size, head, record))
  {
    var t := PublishTrace(c, prompt, podcast, size, head, record);
    forall k | 0 <= k < |t| && t[k].PutRecord? ensures k == 8 {
    }
  }

  /** A failed publication phase writes no record. */
  lemma PublishFailedWritesNothing(c: Context, stories: seq<Story>, summaries: seq<string>, sv: Services)
    requires Publish(c, stories, summaries, sv).Failed?
    ensures NoRecordWrite(Publish(c, stories, summaries, sv).trace)
  {
  }

  lemma PublishGuarded(c: Context, stories: seq<Story>, summaries: seq<string>, sv: Services)
    ensures var o := Publish(c, stories, summaries, sv);
      && RecordWriteGuarded(o.trace)
      && (o.Failed? ==> NoRecordWrite(o.trace))
  {
    var o := Publish(c, stories, summaries, sv);
    if o.Completed? {
      PublishCompleted(c, stories, summaries, sv);
      PublishTraceGuarded(c, Join(summaries, Separator), sv.podcast.value, sv.audio.value, sv.head, o.record);
    } else {
      PublishFailedWritesNothing(c, stories, summaries, sv);
    }
  }

  /** The publication phase after calls that write no record: any record
      write is last and guarded, a failure writes nothing, and a completed
      phase ends with the record write under the content key. */
  lemma PrependPublishGuarded(pre: seq<Event>, c: Context, stories: seq<Story>,
                              summaries: seq<string>, sv: Services)
    requires NoRecordWrite(pre)
    ensures var r := Prepend(pre, Publish(c, stories, summaries, sv));
      && RecordWriteGuarded(r.trace)
      && (r.Failed? ==> NoRecordWrite(r.trace))
      && (r.Completed? ==>
            |r.trace| > 0 && r.trace[|r.trace| - 1] == PutRecord(ContentKey(c.env, c.source, c.today), r.record))
  {
    var o := Publish(c, stories, summaries, sv);
    PublishGuarded(c, stories, summaries, sv);
    GuardedAfterPrefix(pre, o.trace);
    if o.Completed? {
      PublishCompleted(c, stories, summaries, sv);
      assert (pre + o.trace)[|pre + o.trace| - 1] == o.trace[|o.trace| - 1];
    } else {
      forall e | e in pre + o.trace ensures !e.PutRecord? {
        assert e in pre || e in o.trace;
      }
    }
  }

  /** A run writes the record exactly when it completes, and any record
      write is guarded: last, right after a verified audio upload whose key
      the record carries. A failed run writes no record. */
  lemma RunRecordWriteIsLastAndGuarded(p: Params, s: Settings, clock: Clock, sv: Services)
    ensures RecordWriteGuarded(Run(p, s, clock, sv).trace)
    ensures Run(p, s, clock, sv).Failed? ==> NoRecordWrite(Run(p, s, clock, sv).trace)
    ensures Run(p, s, clock, sv).Completed? ==>
      var t := Run(p, s, clock, sv).trace;
      var c := Resolve(p, s, clock);
      |t| > 0 && t[|t| - 1] == PutRecord(ContentKey(c.env, c.source, c.today), Run(p, s, clock, sv).record)
  {
    var c := Resolve(p, s, clock);
    if c.source in sv.fetchers && sv.topStories.Some? && |sv.topStories.value| > 0
       && StoryLoop(FirstStories(sv.topStories.value), sv, c.maxTokens, c.pause).LoopDone?
    {
      RunTraceAfterLoop(p, s, clock, sv);
      var stories := FirstStories(sv.topStories.value);
      var loop := StoryLoop(stories, sv, c.maxTokens, c.pause);
      var pre := [ListStories(c.today)] + loop.trace;
      forall e | e in pre ensures !e.PutRecord? {
        assert e == ListStories(c.today) || e in loop.trace;
      }
      PrependPublishGuarded(pre, c, stories, loop.summaries, sv);
    } else {
      RunTraceBeforeLoopEnds(p, s, clock, sv);
      var t := Run(p, s, clock, sv).trace;
      forall k | 0 <= k < |t| ensures !t[k].PutRecord? {
        assert t[k] in t;
      }
    }
  }

  /** Everything before the audio step succeeds. */
  ghost predicate ReachesAudio(p: Params, s: Settings, clock: Clock, sv: Services) {
    var c := Resolve(p, s, clock);
    && c.source in sv.fetchers
    && sv.topStories.Some? && |sv.topStories.value| > 0
    && AllStoriesSucceed(FirstStories(sv.topStories.value), sv)
    && sv.podcast.Some? && sv.blog.Some? && sv.intro.Some?
  }

  /** Once the run reaches the audio step it fails there exactly when the
      upload's verification fails (no audio, upload failed, nothing stored,
      or a stored size smaller than the produced one), and otherwise it
      completes exactly when the record write succeeds. */
  lemma RunAudioGuard(p: Params, s: Settings, clock: Clock, sv: Services)
    requires ReachesAudio(p, s, clock, sv)
    ensures var verified := sv.audio.Some? && sv.audioStored && sv.head.Some?
                            && sv.head.value >= sv.audio.value;
      && (!verified <==> Run(p, s, clock, sv).Failed? && Run(p, s, clock, sv).failure == StepFailed(AudioStep))
      && (Run(p, s, clock, sv).Completed? <==> verified && sv.recordStored)
  {
    var c := Resolve(p, s, clock);
    var stories := FirstStories(sv.topStories.value);
    StoryLoopTrace(stories, sv, c.maxTokens, c.pause);
  }

  /** A call of the audio step: synthesis, the upload or the read-back. */
  predicate AudioCall(e: Event) {
    e.Synthesize? || e.PutAudio? || e.HeadAudio?
  }

  /** The publication phase makes an audio call only after the podcast,
      blog and intro texts have all been generated. */
  lemma PublishAudioNeedsTexts(c: Context, stories: seq<Story>, summaries: seq<string>, sv: Services)
    ensures (exists e :: e in Publish(c, stories, summaries, sv).trace && AudioCall(e)) ==>
      sv.podcast.Some? && sv.blog.Some? && sv.intro.Some?
  {
  }

  /** Once the three texts exist, the publication phase opens with the
      podcast, blog and intro calls and their pauses, then synthesis. */
  lemma PublishOpening(c: Context, stories: seq<Story>, summaries: seq<string>, sv: Services)
    requires sv.podcast.Some? && sv.blog.Some? && sv.intro.Some?
    ensures var t := Publish(c, stories, summaries, sv).trace;
      var prompt := Join(summaries, Separator);
      && |t| >= 6
      && t[..5] == [GeneratePodcast(prompt, c.maxTokens), Pause(c.pause),
                    GenerateBlog(prompt, c.maxTokens), Pause(c.pause),
                    GenerateIntro(sv.podcast.value)]
      && t[5] == Synthesize(sv.podcast.value)
  {
  }

  /** The calls of a run that reached the audio step, up to synthesis: the
      listing call, three calls per processed story, the podcast and blog
      calls on the joined summaries with their pauses, the intro call on
      the podcast script, then synthesis of that script. */
  ghost predicate AudioOpening(t: seq<Event>, c: Context, stories: seq<Story>, sv: Services)
    requires sv.podcast.Some?
  {
    var prompt := Join(Summaries(stories, sv), Separator);
    var n := 3 * |stories|;
    && |t| >= n + 7
    && t[0] == ListStories(c.today)
    && StoryTraceOf(t[1..1 + n], stories, sv, c.maxTokens, c.pause)
    && t[1 + n..6 + n] == [GeneratePodcast(prompt, c.maxTokens), Pause(c.pause),
                           GenerateBlog(prompt, c.maxTokens), Pause(c.pause),
                           GenerateIntro(sv.podcast.value)]
    && t[6 + n] == Synthesize(sv.podcast.value)
  }

  /** The audio step can only be reached through the whole run before it:
      a run whose trace holds an audio call listed stories from a
      registered source, summarised every processed story and generated
      all three texts, and its trace shows those calls in that order
      before synthesis. */
  lemma RunAudioOnlyAfterSummaries(p: Params, s: Settings, clock: Clock, sv: Services)
    ensures (exists e :: e in Run(p, s, clock, sv).trace && AudioCall(e)) ==> ReachesAudio(p, s, clock, sv)
    ensures ReachesAudio(p, s, clock, sv) ==>
      AudioOpening(Run(p, s, clock, sv).trace, Resolve(p, s, clock), FirstStories(sv.topStories.value), sv)
  {
    var c := Resolve(p, s, clock);
    if c.source in sv.fetchers && sv.topStories.Some? && |sv.topStories.value| > 0
       && StoryLoop(FirstStories(sv.topStories.value), sv, c.maxTokens, c.pause).LoopDone?
    {
      RunTraceAfterLoop(p, s, clock, sv);
      AudioAfterLoop(c, FirstStories(sv.topStories.value), sv, Run(p, s, clock, sv).trace);
    } else {
      RunTraceBeforeLoopEnds(p, s, clock, sv);
    }
  }

  /** When the story loop finishes, the run is the listing call and the
      loop's calls in front of the publication phase. */
  lemma RunTraceAfterLoop(p: Params, s: Settings, clock: Clock, sv: Services)
    requires var c := Resolve(p, s, clock);
      && c.source in sv.fetchers && sv.topStories.Some? && |sv.topStories.value| > 0
      && StoryLoop(FirstStories(sv.topStories.value), sv, c.maxTokens, c.pause).LoopDone?
    ensures var c := Resolve(p, s, clock);
      var stories := FirstStories(sv.topStories.value);
      var loop := StoryLoop(stories, sv, c.maxTokens, c.pause);
      var o := Publish(c, stories, loop.summaries, sv);
      && Run(p, s, clock, sv) == Prepend([ListStories(c.today)] + loop.trace, o)
      && Run(p, s, clock, sv).trace == [ListStories(c.today)] + loop.trace + o.trace
  {
  }

  /** A run that stops before its story loop finishes fails, having made
      only the listing call and per-story calls. */
  lemma RunTraceBeforeLoopEnds(p: Params, s: Settings, clock: Clock, sv: Services)
    requires var c := Resolve(p, s, clock);
      !(&& c.source in sv.fetchers && sv.topStories.Some? && |sv.topStories.value| > 0
        && StoryLoop(FirstStories(sv.topStories.value), sv, c.maxTokens, c.pause).LoopDone?)
    ensures Run(p, s, clock, sv).Failed?
    ensures forall e :: e in Run(p, s, clock, sv).trace ==> e.ListStories? || StoryEvent(e)
  {
    var c := Resolve(p, s, clock);
    var r := Run(p, s, clock, sv);
    if c.source in sv.fetchers && sv.topStories.Some? && |sv.topStories.value| > 0 {
      var loop := StoryLoop(FirstStories(sv.topStories.value), sv, c.maxTokens, c.pause);
      assert r.trace == [ListStories(c.today)] + loop.trace;
      forall e | e in r.trace ensures e.ListStories? || StoryEvent(e) {
        assert e == ListStories(c.today) || e in loop.trace;
      }
    }
  }

  /** A trace made of the listing call, a finished story loop and the
      publication phase: an audio call in it needs all three texts, and
      with them the texts' calls come right after the loop and right
      before synthesis. */
  lemma AudioAfterLoop(c: Context, stories: seq<Story>, sv: Services, t: seq<Event>)
    requires StoryLoop(stories, sv, c.maxTokens, c.pause).LoopDone?
    requires var loop := StoryLoop(stories, sv, c.maxTokens, c.pause);
      t == [ListStories(c.today)] + loop.trace + Publish(c, stories, loop.summaries, sv).trace
    ensures (exists e :: e in t && AudioCall(e)) ==> sv.podcast.Some? && sv.blog.Some? && sv.intro.Some?
    ensures sv.podcast.Some? && sv.blog.Some? && sv.intro.Some? ==> AudioOpening(t, c, stories, sv)
  {
    var loop := StoryLoop(stories, sv, c.maxTokens, c.pause);
    var pre := [ListStories(c.today)] + loop.trace;
    var o := Publish(c, stories, loop.summaries, sv);
    assert t == pre + o.trace;
    PublishAudioNeedsTexts(c, stories, loop.summaries, sv);
    forall e | e in t && AudioCall(e)
      ensures sv.podcast.Some? && sv.blog.Some? && sv.intro.Some?
    {
      assert e == ListStories(c.today) || e in loop.trace || e in o.trace;
    }
    if sv.podcast.Some? && sv.blog.Some? && sv.intro.Some? {
      StoryLoopTrace(stories, sv, c.maxTokens, c.pause);
      PublishOpening(c, stories, loop.summaries, sv);
      OpeningFromParts(c, stories, sv, loop.trace, o.trace);
    }
  }

  /** The listing call, a well-formed per-story block and a publication
      phase that opens with the three generations and synthesis together
      form the opening of a run that reached audio. */
  lemma OpeningFromParts(c: Context, stories: seq<Story>, sv: Services, loop: seq<Event>, tail: seq<Event>)
    requires sv.podcast.Some?
    requires StoryTraceOf(loop, stories, sv, c.maxTokens, c.pause)
    requires var prompt := Join(Summaries(stories, sv), Separator);
      && |tail| >= 6
      && tail[..5] == [GeneratePodcast(prompt, c.maxTokens), Pause(c.pause),
                       GenerateBlog(prompt, c.maxTokens), Pause(c.pause),
                       GenerateIntro(sv.podcast.value)]
      && tail[5] == Synthesize(sv.podcast.value)
    ensures AudioOpening([ListStories(c.today)] + loop + tail, c, stories, sv)
  {
    var t := [ListStories(c.today)] + loop + tail;
    var n := 3 * |stories|;
    assert t[1..1 + n] == loop;
    assert t[1 + n..6 + n] == tail[..5];
    assert t[6 + n] == tail[5];
  }

  /** Splitting at the first colon: a colon-free head is recovered from
      `head + ":" + rest`. */
  lemma {:induction false} SplitAtColon(x: string, y: string, x': string, y': string)
    requires ':' !in x && ':' !in x'
    requires x + ":" + y == x' + ":" + y'
    ensures x == x' && y == y'
  {
    var u := x + ":" + y;
    forall i | 0 <= i < |x'| ensures u[i] != ':' {
      assert u[i] == x'[i];
    }
    forall i | 0 <= i < |x| ensures u[i] != ':' {
      assert u[i] == x[i];
    }
    assert u[|x|] == ':' && u[|x'|] == ':';
    assert x == u[..|x|] == x';
    assert y == u[|x| + 1..] == y';
  }

  /** Distinct runs never share a record key: when environment and source
      contain no colon, the key determines environment, source and date. */
  lemma ContentKeyInjective(env: string, source: string, today: string,
                            env': string, source': string, today': string)
    requires ':' !in env && ':' !in source && ':' !in env' && ':' !in source'
    requires ContentKey(env, source, today) == ContentKey(env', source', today')
    ensures env == env' && source == source' && today == today'
  {
    var k := ContentKey(env, source, today);
    var prefix := "content:";
    assert k == prefix + (env + ":" + (source + ":" + today));
    assert k == prefix + (env' + ":" + (source' + ":" + today'));
    assert k[|prefix|..] == env + ":" + (source + ":" + today);
    assert k[|prefix|..] == env' + ":" + (source' + ":" + today');
    SplitAtColon(env, source + ":" + today, env', source' + ":" + today');
    SplitAtColon(source, today, source', today');
  }

  lemma ConcatParts(a: string, b: string, c: string)
    ensures |a + b + c| == |a| + |b| + |c|
    ensures (a + b + c)[..|a|] == a
    ensures (a + b + c)[|a| + |b|..] == c
  {
    assert a + b + c == a + (b + c);
  }

  /** The audio key starts with the date written as a path (no dash left in
      it) and ends with the date and `.mp3`. */
  lemma AudioKeyLayout(env: string, source: string, today: string)
    ensures var k := AudioKey(env, source, today);
      && |k| == 2 * |today| + |env| + |source| + 7
      && k[..|today|] == ReplaceAll(today, '-', '/')
      && '-' !in k[..|today|]
      && k[|k| - 4 - |today|..] == today + ".mp3"
  {
    var path := ReplaceAll(today, '-', '/');
    var middle := "/" + env + "/" + source + "-";
    var tail := today + ".mp3";
    ConcatParts(path, middle, tail);
    ReplaceAllRemoves(today, '-', '/');
  }

  /** The date is recovered from the path part of the audio key when it
      contains no slash of its own. */
  lemma AudioKeyDateRoundTrip(env: string, source: string, today: string)
    requires '/' !in today
    ensures var k := AudioKey(env, source, today);
      |k| >= |today| && ReplaceAll(k[..|today|], '/', '-') == today
  {
    AudioKeyLayout(env, source, today);
    ReplaceAllRoundTrip(today, '-', '/');
  }
}
