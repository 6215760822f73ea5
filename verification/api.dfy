/**
 * The wire types of the generation backend, as the console declares them.
 * Field names follow the JSON keys of the HTTP API. A TypeScript optional
 * property (`key?: T`) is an `Option<T>`: `None` means the key is absent
 * from the JSON object, not that it is sent as null.
 */
module Api {
  import opened Wrappers

  datatype Resolution = R1080p | R720p
  datatype QualityPreset = Balanced | Best
  datatype CaptionPosition = Top | Center | Bottom
  datatype CaptionAnimation =
    | NoAnimation | Fade | Pop | Bounce | ScaleUp | Karaoke | Glow | Highlight | WordBox
  datatype TextCase = Uppercase | Lowercase | Original
  datatype CropStrategy = SmartCenter | CenterCrop

  datatype VideoConfig = VideoConfig(
    resolution: Resolution,
    min_duration: int,
    max_duration: int,
    clips_count: int,
    quality_preset: QualityPreset)

  datatype ContentConfig = ContentConfig(
    prompt_style: string,
    custom_prompt: Option<string>,
    language: Option<string>)

  /** Stroke width is a slider value; it is carried through untouched, so `real` stands for it. */
  datatype CaptionConfig = CaptionConfig(
    enabled: bool,
    font: string,
    fontsize: int,
    bold: bool,
    italic: bool,
    color: string,
    stroke_color: string,
    stroke_width: real,
    position: CaptionPosition,
    position_x: Option<int>,
    position_y: Option<int>,
    animation: CaptionAnimation,
    text_case: TextCase,
    words_per_caption: int,
    highlight_color: string)

  datatype BackgroundMusicConfig = BackgroundMusicConfig(
    source_url: Option<string>,
    volume: real,
    loop: bool)

  datatype VisualConfig = VisualConfig(
    face_tracking: bool,
    crop_strategy: CropStrategy,
    captions: CaptionConfig,
    effects: seq<string>)

  datatype AudioConfig = AudioConfig(
    background_music: Option<BackgroundMusicConfig>,
    voiceover_volume: real)

  datatype GenerateRequest = GenerateRequest(
    source_url: string,
    config: Option<VideoConfig>,
    content: Option<ContentConfig>,
    visuals: Option<VisualConfig>,
    audio: Option<AudioConfig>,
    webhook_url: Option<string>)

  /** `queued` and `processing` are in progress; `completed` and `failed` are terminal. */
  datatype JobStatus = Queued | Processing | Completed | Failed {
    predicate IsTerminal() {
      Completed? || Failed?
    }
  }

  datatype Clip = Clip(
    clip_id: string,
    download_url: string,
    title: Option<string>,
    summary: Option<string>,
    duration: real,
    virality_score: Option<real>,
    reasoning: Option<string>)

  datatype JobResult = JobResult(clips: Option<seq<Clip>>)

  /** `elapsed` is the server's figure already rounded down to whole seconds. */
  datatype JobResponse = JobResponse(
    job_id: string,
    status: JobStatus,
    message: Option<string>,
    result: Option<JobResult>,
    elapsed: Option<nat>)

  /** The account profile `GET /me` returns. */
  datatype User = User(email: string, tier: string, credits: int)

  /** What `validateApiKey` resolves to: the profile, or the server's `detail` text if it sent one. */
  datatype Validation = Valid(user: User) | Invalid(error: Option<string>)

  /** How a `getJobStatus` call settles: a job document, or a rejected request. */
  datatype PollOutcome = Fetched(job: JobResponse) | RequestFailed
}
