/**
 * The playground form and the `GenerateRequest` that `handleGenerate` builds from it.
 * Optional request keys are left out, not sent empty, when their gate fails.
 */
module Request {
  import opened Wrappers
  import opened Api

  /**
   * Every form value that feeds the request. Text inputs are strings, sliders
   * and counters are numbers, the two offset inputs are `number | null`.
   */
  datatype Form = Form(
    sourceUrl: string,
    resolution: Resolution,
    clipsCount: int,
    minDuration: int,
    maxDuration: int,
    qualityPreset: QualityPreset,
    captionsEnabled: bool,
    captionFont: string,
    captionFontSize: int,
    captionBold: bool,
    captionItalic: bool,
    captionColor: string,
    strokeColor: string,
    strokeWidth: real,
    captionPosition: CaptionPosition,
    positionX: Option<int>,
    positionY: Option<int>,
    captionAnimation: CaptionAnimation,
    textCase: TextCase,
    wordsPerCaption: int,
    highlightColor: string,
    faceTracking: bool,
    cropStrategy: CropStrategy,
    bgMusicUrl: string,
    bgMusicVolume: real,
    bgMusicLoop: bool,
    voiceoverVolume: real,
    promptStyle: string,
    customPrompt: string,
    language: string,
    webhookUrl: string,
    selectedEffects: seq<string>)

  /** The form as the playground first shows it. */
  const InitialForm := Form(
    "", R1080p, 1, 15, 60, Balanced,
    true, "Inter", 40, true, false, "#FFFFFF", "#000000", 3.0, Center, None, None, WordBox,
    Uppercase, 3, "#3b82f6",
    true, SmartCenter,
    "", 0.15, true, 1.0,
    "viral_hook", "", "auto",
    "",
    [])

  /** `text || undefined`: an empty string becomes an absent key. */
  function NonEmpty(text: string): (r: Option<string>)
    ensures r.None? <==> text == ""
    ensures r.Some? ==> r.value == text
  {
    if text == "" then None else Some(text)
  }

  /** The request `handleGenerate` sends for form `f`. */
  function BuildRequest(f: Form): (r: GenerateRequest)
    ensures r.source_url == f.sourceUrl
    ensures r.config.Some? && r.content.Some? && r.visuals.Some? && r.audio.Some?
    ensures r.content.value.custom_prompt.None? <==> f.customPrompt == ""
    ensures r.content.value.custom_prompt.Some? ==> r.content.value.custom_prompt.value == f.customPrompt
    ensures r.audio.value.background_music.None? <==> f.bgMusicUrl == ""
    ensures r.audio.value.background_music.Some? ==>
      r.audio.value.background_music.value == BackgroundMusicConfig(Some(f.bgMusicUrl), f.bgMusicVolume, f.bgMusicLoop)
    ensures r.webhook_url.None? <==> f.webhookUrl == ""
    ensures r.webhook_url.Some? ==> r.webhook_url.value == f.webhookUrl
    ensures r.visuals.value.captions.position_x == f.positionX
    ensures r.visuals.value.captions.position_y == f.positionY
    ensures r.visuals.value.effects == f.selectedEffects
  {
    GenerateRequest(
      f.sourceUrl,
      Some(VideoConfig(f.resolution, f.minDuration, f.maxDuration, f.clipsCount, f.qualityPreset)),
      Some(ContentConfig(f.promptStyle, NonEmpty(f.customPrompt), Some(f.language))),
      Some(VisualConfig(
        f.faceTracking,
        f.cropStrategy,
        CaptionConfig(
          f.captionsEnabled, f.captionFont, f.captionFontSize, f.captionBold, f.captionItalic,
          f.captionColor, f.strokeColor, f.strokeWidth, f.captionPosition,
          f.positionX, f.positionY,
          f.captionAnimation, f.textCase, f.wordsPerCaption, f.highlightColor),
        f.selectedEffects)),
      Some(AudioConfig(
        if f.bgMusicUrl != "" then Some(BackgroundMusicConfig(Some(f.bgMusicUrl), f.bgMusicVolume, f.bgMusicLoop)) else None,
        f.voiceoverVolume)),
      NonEmpty(f.webhookUrl))
  }

  /**
   * The shape of every request the builder can produce: all four blocks present,
   * the language set, and no optional key present with an empty value.
   */
  predicate WellFormed(r: GenerateRequest) {
    && r.config.Some? && r.content.Some? && r.visuals.Some? && r.audio.Some?
    && r.content.value.language.Some?
    && r.content.value.custom_prompt != Some("")
    && r.webhook_url != Some("")
    && (r.audio.value.background_music.Some? ==>
         r.audio.value.background_music.value.source_url.Some? &&
         r.audio.value.background_music.value.source_url.value != "")
  }

  /**
   * Reads the form back out of a well-formed request. The music volume and loop
   * flag are not in a request without a music block, so the caller supplies
   * the values to assume for them.
   */
  function FormOf(r: GenerateRequest, musicVolume: real, musicLoop: bool): Form
    requires WellFormed(r)
  {
    var v := r.config.value;
    var c := r.content.value;
    var vis := r.visuals.value;
    var cap := vis.captions;
    var a := r.audio.value;
    var music := a.background_music;
    Form(
      r.source_url, v.resolution, v.clips_count, v.min_duration, v.max_duration, v.quality_preset,
      cap.enabled, cap.font, cap.fontsize, cap.bold, cap.italic, cap.color, cap.stroke_color,
      cap.stroke_width, cap.position, cap.position_x, cap.position_y, cap.animation, cap.text_case,
      cap.words_per_caption, cap.highlight_color,
      vis.face_tracking, vis.crop_strategy,
      if music.Some? then music.value.source_url.value else "",
      if music.Some? then music.value.volume else musicVolume,
      if music.Some? then music.value.loop else musicLoop,
      a.voiceover_volume,
      c.prompt_style, c.custom_prompt.GetOr(""), c.language.value,
      r.webhook_url.GetOr(""),
      vis.effects)
  }

  /** Every built request is well formed, and it carries the whole form back. */
  lemma BuildRequestRoundTrip(f: Form)
    ensures WellFormed(BuildRequest(f))
    ensures FormOf(BuildRequest(f), f.bgMusicVolume, f.bgMusicLoop) == f
  {
  }

  /** Reading a built request back loses only the music volume and loop flag, and only without a music URL. */
  lemma ReadBack(f: Form, musicVolume: real, musicLoop: bool)
    ensures WellFormed(BuildRequest(f))
    ensures FormOf(BuildRequest(f), musicVolume, musicLoop) ==
      if f.bgMusicUrl == "" then f.(bgMusicVolume := musicVolume, bgMusicLoop := musicLoop) else f
  {
  }

  /** Conversely every well-formed request is what the builder makes of the form read out of it. */
  lemma WellFormedIsBuilt(r: GenerateRequest, musicVolume: real, musicLoop: bool)
    requires WellFormed(r)
    ensures BuildRequest(FormOf(r, musicVolume, musicLoop)) == r
  {
  }

  /**
   * Two forms give the same request exactly when they agree on everything but the
   * music volume and loop flag, and on those too whenever a music URL is set.
   */
  lemma BuildRequestInjective(f: Form, g: Form)
    ensures BuildRequest(f) == BuildRequest(g) <==>
      && f.(bgMusicVolume := 0.0, bgMusicLoop := false) == g.(bgMusicVolume := 0.0, bgMusicLoop := false)
      && (f.bgMusicUrl != "" ==> f.bgMusicVolume == g.bgMusicVolume && f.bgMusicLoop == g.bgMusicLoop)
  {
    var nf := f.(bgMusicVolume := 0.0, bgMusicLoop := false);
    var ng := g.(bgMusicVolume := 0.0, bgMusicLoop := false);
    if BuildRequest(f) == BuildRequest(g) {
      ReadBack(f, 0.0, false);
      ReadBack(g, 0.0, false);
      if f.bgMusicUrl != "" {
        assert f == g;
      }
    }
    if nf == ng && (f.bgMusicUrl != "" ==> f.bgMusicVolume == g.bgMusicVolume && f.bgMusicLoop == g.bgMusicLoop) {
      if f.bgMusicUrl == "" {
        assert BuildRequest(f) == BuildRequest(nf);
        assert BuildRequest(g) == BuildRequest(ng);
      } else {
        assert f == g;
      }
    }
  }

  /**
   * With the source URL filled in and every other field at its default, the
   * request carries the default video and content settings and leaves out the
   * custom prompt, the music, the webhook, the caption offsets and all effects.
   */
  lemma InitialFormRequest(url: string)
    ensures var r := BuildRequest(InitialForm.(sourceUrl := url));
      && r.source_url == url
      && r.config == Some(VideoConfig(R1080p, 15, 60, 1, Balanced))
      && r.content == Some(ContentConfig("viral_hook", None, Some("auto")))
      && r.audio.value.background_music.None? && r.webhook_url.None?
      && r.visuals.value.captions.position_x.None? && r.visuals.value.captions.position_y.None?
      && r.visuals.value.effects == []
  {
  }
}
