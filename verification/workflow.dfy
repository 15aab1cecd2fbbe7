/** One run of the daily news workflow as a pure function: every external
    capability (fetcher, language model, speech synthesis, blob store,
    key-value store) is an outcome supplied up front, and the run returns
    either the point where it failed or the record it saved, together with
    the ordered trace of calls it made. */
module Workflow {
  import opened Results
  import opened Text
  import opened Listing

  const DefaultSource := "hacker-news"
  const DefaultEnv := "production"
  const DevEnv := "development"
  const DefaultMaxTokens := 4096
  /** At most this many stories are processed, in development and production alike. */
  const MaxStories := 10
  const DevPauseSeconds := 2
  const PauseSeconds := 10

  const PodcastStep := "create podcast content"
  const BlogStep := "create blog content"
  const IntroStep := "create intro content"
  const AudioStep := "create podcast audio"
  const SaveStep := "save content to kv"

  function TopStoriesStep(today: string): string { "get top stories " + today }
  function GetStoryStep(s: Story): string { "get story " + s.id + ": " + s.title }
  function SummarizeStep(s: Story): string { "summarize story " + s.id + ": " + s.title }

  /** The event payload: both fields optional. */
  datatype Params = Params(today: Option<string>, source: Option<string>)

  /** The environment bindings the run reads; `maxTokens` is the already
      parsed `OPENAI_MAX_TOKENS`, `None` when unset or empty. `podcastTitle`
      comes from the site configuration. */
  datatype Settings = Settings(nextjsEnv: Option<string>, maxTokens: Option<int>, podcastTitle: string)

  /** The ambient clock: the current UTC date as `YYYY-MM-DD` and the
      current time in milliseconds. */
  datatype Clock = Clock(date: string, nowMillis: int)

  /** The final outcome of each external call, after the step's own retries.
      `fetchers` is the set of registered source keys; the per-story
      outcomes are looked up by story, as the step names that memoise them
      are built from the story's id and title. `audio` is the byte size of
      the synthesised track; `head` is what the blob store reports after the
      upload. */
  datatype Services = Services(
    fetchers: set<string>,
    topStories: Option<seq<Story>>,
    storyContent: Story -> Option<string>,
    storySummary: Story -> Option<string>,
    podcast: Option<string>,
    blog: Option<string>,
    intro: Option<string>,
    audio: Option<nat>,
    audioStored: bool,
    head: Option<nat>,
    recordStored: bool)

  /** The JSON record saved under the content key. */
  datatype RunRecord = RunRecord(
    date: string,
    title: string,
    source: string,
    stories: seq<Story>,
    podcastContent: string,
    blogContent: string,
    introContent: string,
    audio: string,
    updatedAt: int)

  /** Calls made by the run, in order. The two writes appear only when they
      took effect. */
  datatype Event =
    | ListStories(date: string)
    | FetchStory(story: Story, maxTokens: int)
    | SummarizeStory(story: Story, prompt: string)
    | Pause(seconds: nat)
    | GeneratePodcast(prompt: string, maxTokens: int)
    | GenerateBlog(prompt: string, maxTokens: int)
    | GenerateIntro(prompt: string)
    | Synthesize(text: string)
    | PutAudio(key: string, size: nat)
    | HeadAudio(key: string, reported: Option<nat>)
    | PutRecord(key: string, record: RunRecord)

  datatype Failure =
    | UnknownSource(source: string)
    | NoStories
    | StepFailed(step: string)

  datatype RunOutcome =
    | Failed(failure: Failure, trace: seq<Event>)
    | Completed(record: RunRecord, trace: seq<Event>)

  /** The values the run settles before its first step. */
  datatype Context = Context(
    env: string, today: string, source: string, maxTokens: int,
    pause: nat, title: string, now: int)

  /** A non-empty payload or environment value is used as given; a missing
      or empty one falls back to environment `production`, the clock's date
      and source `hacker-news`; an unset token setting means 4096. The pause
      is 2 seconds only in the `development` environment. */
  function Resolve(p: Params, s: Settings, clock: Clock): (c: Context)
    ensures c.env != "" && c.source != ""
    ensures p.source.Some? && p.source.value != "" ==> c.source == p.source.value
    ensures (p.source.None? || p.source == Some("")) ==> c.source == DefaultSource
    ensures s.nextjsEnv.Some? && s.nextjsEnv.value != "" ==> c.env == s.nextjsEnv.value
    ensures (s.nextjsEnv.None? || s.nextjsEnv == Some("")) ==> c.env == DefaultEnv
    ensures p.today.Some? && p.today.value != "" ==> c.today == p.today.value
    ensures (p.today.None? || p.today == Some("")) ==> c.today == clock.date
    ensures s.maxTokens.Some? ==> c.maxTokens == s.maxTokens.value
    ensures s.maxTokens.None? ==> c.maxTokens == DefaultMaxTokens
    ensures c.pause == (if s.nextjsEnv == Some(DevEnv) then DevPauseSeconds else PauseSeconds)
    ensures c.title == s.podcastTitle && c.now == clock.nowMillis
  {
    var env := OrElse(s.nextjsEnv, DefaultEnv);
    Context(
      env,
      OrElse(p.today, clock.date),
      OrElse(p.source, DefaultSource),
      s.maxTokens.GetOr(DefaultMaxTokens),
      if env == DevEnv then DevPauseSeconds else PauseSeconds,
      s.podcastTitle,
      clock.nowMillis)
  }

  /** `content:{env}:{source}:{date}`. */
  function ContentKey(env: string, source: string, today: string): string {
    "content:" + env + ":" + source + ":" + today
  }

  /** `{date with '-' replaced by '/'}/{env}/{source}-{date}.mp3`. */
  function AudioKey(env: string, source: string, today: string): string {
    ReplaceAll(today, '-', '/') + ("/" + env + "/" + source + "-") + (today + ".mp3")
  }

  /** `stories.length = Math.min(stories.length, 10)`. */
  function FirstStories(listed: seq<Story>): (r: seq<Story>)
    ensures |r| == Min(|listed|, MaxStories)
    ensures r <= listed
  {
    if |listed| <= MaxStories then listed else listed[..MaxStories]
  }

  predicate StoryEvent(e: Event) {
    e.FetchStory? || e.SummarizeStory? || e.Pause?
  }

  /** Every story's content step and summary step succeed. */
  predicate AllStoriesSucceed(stories: seq<Story>, sv: Services) {
    forall i :: 0 <= i < |stories| ==>
      sv.storyContent(stories[i]).Some? && sv.storySummary(stories[i]).Some?
  }

  datatype LoopOutcome =
    | LoopDone(summaries: seq<string>, trace: seq<Event>)
    | LoopFailed(failure: Failure, trace: seq<Event>)

  /** The per-story loop: fetch the content, summarise it, pause; stop at the
      first step that fails. */
  function StoryLoop(stories: seq<Story>, sv: Services, maxTokens: int, pause: nat): (r: LoopOutcome)
    ensures r.LoopDone? <==> AllStoriesSucceed(stories, sv)
    ensures r.LoopDone? ==> |r.summaries| == |stories|
    ensures r.LoopDone? ==> forall i :: 0 <= i < |stories| ==>
      r.summaries[i] == sv.storySummary(stories[i]).value
    ensures r.LoopFailed? ==> r.failure.StepFailed?
    ensures forall e :: e in r.trace ==> StoryEvent(e)
    decreases |stories|
  {
    if |stories| == 0 then LoopDone([], [])
    else
      var st := stories[0];
      var fetch := [FetchStory(st, maxTokens)];
      match sv.storyContent(st)
      case None => LoopFailed(StepFailed(GetStoryStep(st)), fetch)
      case Some(content) =>
        var t := fetch + [SummarizeStory(st, content)];
        match sv.storySummary(st)
        case None => LoopFailed(StepFailed(SummarizeStep(st)), t)
        case Some(text) =>
          var rest := StoryLoop(stories[1..], sv, maxTokens, pause);
          assert AllStoriesSucceed(stories, sv) <==> AllStoriesSucceed(stories[1..], sv) by {
            if AllStoriesSucceed(stories[1..], sv) {
              forall i | 1 <= i < |stories|
                ensures sv.storyContent(stories[i]).Some? && sv.storySummary(stories[i]).Some?
              {
                assert stories[i] == stories[1..][i - 1];
              }
            }
          }
          match rest
          case LoopFailed(f, more) => LoopFailed(f, t + [Pause(pause)] + more)
          case LoopDone(ss, more) => LoopDone([text] + ss, t + [Pause(pause)] + more)
  }

  datatype AudioOutcome = AudioOutcome(verified: bool, trace: seq<Event>)

  /** The audio step: synthesise the podcast script, upload it, read back
      the stored object's metadata, and accept only when an object is there
      and it is at least as large as the produced audio. */
  function UploadAudio(podcast: string, key: string, sv: Services): (r: AudioOutcome)
    ensures r.verified <==>
      (sv.audio.Some? && sv.audioStored && sv.head.Some? && sv.head.value >= sv.audio.value)
    ensures r.verified ==>
      (r.trace == [Synthesize(podcast), PutAudio(key, sv.audio.value), HeadAudio(key, sv.head)])
    ensures |r.trace| > 0 && r.trace[0] == Synthesize(podcast)
    ensures forall e :: e in r.trace ==> !e.PutRecord?
  {
    var t := [Synthesize(podcast)];
    match sv.audio
    case None => AudioOutcome(false, t)
    case Some(size) =>
      if !sv.audioStored then AudioOutcome(false, t)
      else
        var written := t + [PutAudio(key, size), HeadAudio(key, sv.head)];
        var podcastObject := sv.head;
        if podcastObject.None? || podcastObject.value < size then AudioOutcome(false, written)
        else AudioOutcome(true, written)
  }

  function Prepend(t: seq<Event>, o: RunOutcome): (r: RunOutcome)
  {
    match o
    case Failed(f, more) => Failed(f, t + more)
    case Completed(rec, more) => Completed(rec, t + more)
  }

  /** Everything after the per-story loop: the three aggregate generations,
      the audio step and the record write. It completes only after a
      verified upload and a successful write, and the record carries the
      processed stories, the three generated texts and the audio key. */
  function Publish(c: Context, stories: seq<Story>, summaries: seq<string>, sv: Services): (r: RunOutcome)
    ensures r.Completed? ==>
      && sv.podcast.Some? && sv.blog.Some? && sv.intro.Some? && sv.audio.Some?
      && sv.audioStored && sv.recordStored
      && sv.head.Some? && sv.head.value >= sv.audio.value
      && r.record.stories == stories
      && r.record.podcastContent == sv.podcast.value
      && r.record.blogContent == sv.blog.value
      && r.record.introContent == sv.intro.value
      && r.record.audio == AudioKey(c.env, c.source, c.today)
  {
    var prompt := Join(summaries, Separator);
    var t1 := [GeneratePodcast(prompt, c.maxTokens)];
    match sv.podcast
    case None => Failed(StepFailed(PodcastStep), t1)
    case Some(podcast) =>
      var t2 := t1 + [Pause(c.pause), GenerateBlog(prompt, c.maxTokens)];
      match sv.blog
      case None => Failed(StepFailed(BlogStep), t2)
      case Some(blog) =>
        var t3 := t2 + [Pause(c.pause), GenerateIntro(podcast)];
        match sv.intro
        case None => Failed(StepFailed(IntroStep), t3)
        case Some(intro) =>
          var contentKey := ContentKey(c.env, c.source, c.today);
          var audioKey := AudioKey(c.env, c.source, c.today);
          var audio := UploadAudio(podcast, audioKey, sv);
          var t4 := t3 + audio.trace;
          if !audio.verified then Failed(StepFailed(AudioStep), t4)
          else
            var record := RunRecord(
              c.today, c.title + " " + c.today, c.source, stories,
              podcast, blog, intro, audioKey, c.now);
            if !sv.recordStored then Failed(StepFailed(SaveStep), t4)
            else Completed(record, t4 + [PutRecord(contentKey, record)])
  }

  /** `HackerNewsWorkflow.run`. A completed run listed at least one story
      from a registered source, saved a record of the first `min(n, 10)` of
      them, and got there only through a verified audio upload. */
  function Run(p: Params, s: Settings, clock: Clock, sv: Services): (r: RunOutcome)
    ensures r.Completed? ==>
      && Resolve(p, s, clock).source in sv.fetchers
      && sv.topStories.Some? && |sv.topStories.value| > 0
      && r.record.stories == FirstStories(sv.topStories.value)
      && sv.audio.Some? && sv.head.Some? && sv.head.value >= sv.audio.value
    ensures r.Failed? && r.trace == [] ==> r.failure == UnknownSource(Resolve(p, s, clock).source)
  {
    var c := Resolve(p, s, clock);
    if c.source !in sv.fetchers then Failed(UnknownSource(c.source), [])
    else
      var t0 := [ListStories(c.today)];
      match sv.topStories
      case None => Failed(StepFailed(TopStoriesStep(c.today)), t0)
      case Some(listed) =>
        if |listed| == 0 then Failed(NoStories, t0)
        else
          var stories := FirstStories(listed);
          match StoryLoop(stories, sv, c.maxTokens, c.pause)
          case LoopFailed(f, t1) => Failed(f, t0 + t1)
          case LoopDone(summaries, t1) => Prepend(t0 + t1, Publish(c, stories, summaries, sv))
  }
}
