/**
 * The combined Whisper and text-to-speech language matrix
 * (`language-config.js`, Python code despite its extension): the 38-language
 * table, the support check, voice and generator choice for `/tts`, and the
 * counts `/languages/supported` reports.
 */
module TtsLanguageSupport {
  import opened Wrappers
  import opened Tables

  /** One row of `WHISPER_TTS_LANGUAGES`. */
  datatype LangInfo = LangInfo(whisper: string, tts: bool, quality: string, voices: seq<string>)

  /** A dictionary from language codes to rows, in insertion order. */
  type Table = seq<(string, LangInfo)>

  /** Tier 1: neural and standard voices. */
  const PremiumTier: Table := [
    ("en", LangInfo("english", true, "premium", ["neural", "standard"])),
    ("es", LangInfo("spanish", true, "premium", ["neural", "standard"])),
    ("fr", LangInfo("french", true, "premium", ["neural", "standard"])),
    ("de", LangInfo("german", true, "premium", ["neural", "standard"])),
    ("it", LangInfo("italian", true, "premium", ["neural", "standard"])),
    ("pt", LangInfo("portuguese", true, "premium", ["neural", "standard"])),
    ("ru", LangInfo("russian", true, "premium", ["neural", "standard"])),
    ("ja", LangInfo("japanese", true, "premium", ["neural", "standard"])),
    ("ko", LangInfo("korean", true, "premium", ["neural", "standard"])),
    ("zh", LangInfo("chinese", true, "premium", ["neural", "standard"]))
  ]

  /** Tier 2: neural voices only. */
  const HighTier: Table := [
    ("hi", LangInfo("hindi", true, "high", ["neural"])),
    ("ar", LangInfo("arabic", true, "high", ["neural"])),
    ("tr", LangInfo("turkish", true, "high", ["neural"])),
    ("nl", LangInfo("dutch", true, "high", ["neural"])),
    ("pl", LangInfo("polish", true, "high", ["neural"])),
    ("sv", LangInfo("swedish", true, "high", ["neural"])),
    ("da", LangInfo("danish", true, "high", ["neural"])),
    ("no", LangInfo("norwegian", true, "high", ["neural"])),
    ("fi", LangInfo("finnish", true, "high", ["neural"])),
    ("th", LangInfo("thai", true, "high", ["neural"]))
  ]

  /** Tier 3: standard voices only. */
  const StandardTier: Table := [
    ("uk", LangInfo("ukrainian", true, "standard", ["standard"])),
    ("cs", LangInfo("czech", true, "standard", ["standard"])),
    ("he", LangInfo("hebrew", true, "standard", ["standard"])),
    ("hu", LangInfo("hungarian", true, "standard", ["standard"])),
    ("ro", LangInfo("romanian", true, "standard", ["standard"])),
    ("sk", LangInfo("slovak", true, "standard", ["standard"])),
    ("bg", LangInfo("bulgarian", true, "standard", ["standard"])),
    ("hr", LangInfo("croatian", true, "standard", ["standard"])),
    ("ca", LangInfo("catalan", true, "standard", ["standard"])),
    ("vi", LangInfo("vietnamese", true, "standard", ["standard"])),
    ("id", LangInfo("indonesian", true, "standard", ["standard"])),
    ("ms", LangInfo("malay", true, "standard", ["standard"])),
    ("tl", LangInfo("filipino", true, "standard", ["standard"])),
    ("bn", LangInfo("bengali", true, "standard", ["standard"])),
    ("ta", LangInfo("tamil", true, "standard", ["standard"])),
    ("te", LangInfo("telugu", true, "standard", ["standard"])),
    ("mr", LangInfo("marathi", true, "standard", ["standard"])),
    ("gu", LangInfo("gujarati", true, "standard", ["standard"]))
  ]

  /** `WHISPER_TTS_LANGUAGES`. */
  const WhisperTtsLanguages: Table := PremiumTier + HighTier + StandardTier

  // ------------------------------------------------ get_supported_languages

  /** The rows whose `tts` flag is set, in order. */
  function TtsOnly(table: Table): (r: Table)
    ensures forall e :: e in r <==> e in table && e.1.tts
    ensures |r| <= |table|
  {
    if table == [] then []
    else if table[0].1.tts then [table[0]] + TtsOnly(table[1..])
    else TtsOnly(table[1..])
  }

  /** `get_supported_languages(include_tts_only)`. */
  function SupportedLanguages(table: Table, includeTtsOnly: bool): (r: Table)
    ensures !includeTtsOnly ==> r == table
    ensures includeTtsOnly ==> forall e :: e in r <==> e in table && e.1.tts
  {
    if includeTtsOnly then TtsOnly(table) else table
  }

  /** A table whose every row speaks is returned whole by the filter. */
  lemma {:induction false} TtsOnlyKeepsSpeakingTable(table: Table)
    requires forall i :: 0 <= i < |table| ==> table[i].1.tts
    ensures TtsOnly(table) == table
  {
    if table != [] {
      TtsOnlyKeepsSpeakingTable(table[1..]);
    }
  }

  /** Every language of the matrix has TTS, so `include_tts_only=True` changes nothing. */
  lemma EveryLanguageSpeaks()
    ensures forall i :: 0 <= i < |WhisperTtsLanguages| ==> WhisperTtsLanguages[i].1.tts
    ensures SupportedLanguages(WhisperTtsLanguages, true) == SupportedLanguages(WhisperTtsLanguages, false)
  {
    TierSpeaks(PremiumTier);
    TierSpeaks(HighTier);
    TierSpeaks(StandardTier);
    TtsOnlyKeepsSpeakingTable(WhisperTtsLanguages);
  }

  lemma TierSpeaks(tier: Table)
    requires tier == PremiumTier || tier == HighTier || tier == StandardTier
    ensures forall i :: 0 <= i < |tier| ==> tier[i].1.tts
  {
  }

  // ---------------------------------------------- validate_language_support

  /** What the service raises. */
  datatype LanguageError = ValueError(message: string) | KeyError(key: string) | IndexError

  /** `validate_language_support(code, require_tts)`: true, or the `ValueError` it raises. */
  function ValidateLanguageSupport(table: Table, code: string, requireTts: bool): (r: Result<bool, LanguageError>)
    ensures r.Ok? ==> r.value
  {
    if code == [] then Ok(true)
    else match Get(table, code)
      case None => Err(ValueError("Language " + code + " not supported"))
      case Some(info) =>
        if requireTts && !info.tts then Err(ValueError("TTS not supported for language " + code))
        else Ok(true)
  }

  /**
   * The empty code (auto-detect) is always accepted; any other code is
   * accepted iff it has a row, and that row has TTS when TTS is required.
   * A missing row is reported before a missing TTS flag.
   */
  lemma ValidationDecides(table: Table, code: string, requireTts: bool)
    ensures ValidateLanguageSupport(table, code, requireTts).Ok? <==>
      code == [] || (Get(table, code).Some? && (!requireTts || Get(table, code).value.tts))
    ensures code != [] && Get(table, code).None? ==>
      ValidateLanguageSupport(table, code, requireTts) == Err(ValueError("Language " + code + " not supported"))
    ensures code != [] && Get(table, code).Some? && requireTts && !Get(table, code).value.tts ==>
      ValidateLanguageSupport(table, code, requireTts) == Err(ValueError("TTS not supported for language " + code))
  {
  }

  // ------------------------------------------------------------- /tts

  /** The two speech generators `/tts` can call. */
  datatype Generator = NeuralSpeech | StandardSpeech

  /** What `/tts` does once the checks pass: which generator it calls, with which voice. */
  datatype SpeechPlan = SpeechPlan(generator: Generator, voice: string, text: string, language: string)

  /** The voice used: the requested one if the language has it, else the language's first voice. */
  function ChooseVoice(info: LangInfo, requested: string): (v: Result<string, LanguageError>)
    ensures requested in info.voices ==> v == Ok(requested)
    ensures requested !in info.voices && info.voices != [] ==> v == Ok(info.voices[0])
    ensures info.voices == [] ==> v == Err(IndexError)
    ensures v.Ok? ==> v.value in info.voices
  {
    if requested in info.voices then Ok(requested)
    else if info.voices == [] then Err(IndexError)
    else Ok(info.voices[0])
  }

  /**
   * `text_to_speech(text, language, voice_type, quality)`. The `quality`
   * form field is accepted and never read; the tier comes from the table.
   * The empty language passes validation and then fails the table lookup.
   */
  function TextToSpeech(table: Table, text: string, language: string, voiceType: string, quality: string)
    : (r: Result<SpeechPlan, LanguageError>)
  {
    var checked := ValidateLanguageSupport(table, language, true);
    if checked.Err? then Err(checked.error)
    else match Get(table, language)
      case None => Err(KeyError(language))
      case Some(info) =>
        var voice := ChooseVoice(info, voiceType);
        if voice.Err? then Err(voice.error)
        else
          var generator := if info.quality == "premium" && voice.value == "neural" then NeuralSpeech else StandardSpeech;
          Ok(SpeechPlan(generator, voice.value, text, language))
  }

  /**
   * A plan is made exactly for a known language with TTS and voices; its
   * voice is one the language has (the requested one when available), and
   * the neural generator is used iff the tier is premium and the voice is
   * neural.
   */
  lemma {:induction false} TextToSpeechPlans(table: Table, text: string, language: string, voiceType: string, quality: string)
    ensures var r := TextToSpeech(table, text, language, voiceType, quality);
      var info := Get(table, language);
      (r.Ok? <==> info.Some? && (language == [] || info.value.tts) && info.value.voices != []) &&
      (r.Ok? ==>
        r.value.voice in info.value.voices &&
        (voiceType in info.value.voices ==> r.value.voice == voiceType) &&
        (voiceType !in info.value.voices ==> r.value.voice == info.value.voices[0]) &&
        (r.value.generator == NeuralSpeech <==> info.value.quality == "premium" && r.value.voice == "neural") &&
        r.value.text == text && r.value.language == language)
  {
    var info := Get(table, language);
    ValidationDecides(table, language, true);
    if info.Some? && (language == [] || info.value.tts) {
      var v := ChooseVoice(info.value, voiceType);
      assert v.Ok? <==> info.value.voices != [];
    }
  }

  /** The requested quality has no effect on what `/tts` does. */
  lemma QualityIgnored(table: Table, text: string, language: string, voiceType: string, q1: string, q2: string)
    ensures TextToSpeech(table, text, language, voiceType, q1) == TextToSpeech(table, text, language, voiceType, q2)
  {
  }

  /** An empty language is accepted as auto-detect, then the table lookup raises `KeyError('')`. */
  lemma {:induction false} EmptyLanguageFailsLookup(table: Table, text: string, voiceType: string, quality: string)
    requires forall i :: 0 <= i < |table| ==> table[i].0 != []
    ensures ValidateLanguageSupport(table, [], true) == Ok(true)
    ensures TextToSpeech(table, text, [], voiceType, quality) == Err(KeyError([]))
  {
    assert Get(table, []).None?;
  }

  // --------------------------------------------------- /languages/supported

  /** One element of the `languages` list. */
  datatype LanguageRow = LanguageRow(code: string, whisperSupport: bool, ttsSupport: bool, quality: string, voices: seq<string>)

  /** The body of `/languages/supported`. */
  datatype SupportMatrix = SupportMatrix(
    languages: seq<LanguageRow>, totalLanguages: nat, ttsLanguages: nat,
    premium: nat, high: nat, standard: nat)

  /** The number of rows in `quality`. */
  function CountQuality(table: Table, quality: string): (n: nat)
    ensures n <= |table|
  {
    if table == [] then 0
    else (if table[0].1.quality == quality then 1 else 0) + CountQuality(table[1..], quality)
  }

  /** The number of rows with TTS. */
  function CountTts(table: Table): (n: nat)
    ensures n == |TtsOnly(table)|
  {
    if table == [] then 0
    else (if table[0].1.tts then 1 else 0) + CountTts(table[1..])
  }

  /** `get_supported_languages()` endpoint over a table. */
  function Matrix(table: Table): (m: SupportMatrix)
    ensures |m.languages| == m.totalLanguages == |table|
    ensures forall i :: 0 <= i < |table| ==>
      m.languages[i] == LanguageRow(table[i].0, true, table[i].1.tts, table[i].1.quality, table[i].1.voices)
  {
    SupportMatrix(
      seq(|table|, i requires 0 <= i < |table| => LanguageRow(table[i].0, true, table[i].1.tts, table[i].1.quality, table[i].1.voices)),
      |table|, CountTts(table),
      CountQuality(table, "premium"), CountQuality(table, "high"), CountQuality(table, "standard"))
  }

  /** The tier counts add up to the total when every row's quality is one of the three tiers. */
  lemma {:induction false} TierCountsSum(table: Table)
    requires forall i :: 0 <= i < |table| ==> table[i].1.quality in ["premium", "high", "standard"]
    ensures CountQuality(table, "premium") + CountQuality(table, "high") + CountQuality(table, "standard") == |table|
  {
    if table != [] {
      TierCountsSum(table[1..]);
    }
  }

  /** A tier whose rows all share one quality counts fully in it and not in any other. */
  lemma {:induction false} UniformTierCounts(tier: Table, quality: string, other: string)
    requires forall i :: 0 <= i < |tier| ==> tier[i].1.quality == quality
    requires other != quality
    ensures CountQuality(tier, quality) == |tier| && CountQuality(tier, other) == 0
  {
    if tier != [] {
      UniformTierCounts(tier[1..], quality, other);
    }
  }

  lemma {:induction false} CountQualityAppend(a: Table, b: Table, quality: string)
    ensures CountQuality(a + b, quality) == CountQuality(a, quality) + CountQuality(b, quality)
  {
    if a != [] {
      var head := if a[0].1.quality == quality then 1 else 0;
      assert (a + b)[0] == a[0];
      assert (a + b)[1..] == a[1..] + b;
      assert CountQuality(a + b, quality) == head + CountQuality(a[1..] + b, quality);
      CountQualityAppend(a[1..], b, quality);
      assert CountQuality(a, quality) == head + CountQuality(a[1..], quality);
    } else {
      assert a + b == b;
    }
  }

  /**
   * The matrix reports 38 languages, all with TTS, split 10 premium, 10
   * high and 18 standard, and the three tier counts sum to the total.
   */
  lemma {:induction false} MatrixCounts()
    ensures var m := Matrix(WhisperTtsLanguages);
      m.totalLanguages == 38 && m.ttsLanguages == 38 &&
      m.premium == 10 && m.high == 10 && m.standard == 18 &&
      m.premium + m.high + m.standard == m.totalLanguages
  {
    EveryLanguageSpeaks();
    TtsOnlyKeepsSpeakingTable(WhisperTtsLanguages);
    QualityCounts();
  }

  lemma QualityCounts()
    ensures CountQuality(WhisperTtsLanguages, "premium") == 10
    ensures CountQuality(WhisperTtsLanguages, "high") == 10
    ensures CountQuality(WhisperTtsLanguages, "standard") == 18
  {
    PremiumCount();
    HighCount();
    StandardCount();
  }

  lemma PremiumCount()
    ensures CountQuality(WhisperTtsLanguages, "premium") == 10
  {
    var q := "premium";
    PremiumTierCounts();
    HighTierCounts();
    StandardTierCounts();
    ThreeTiers(q);
  }

  lemma HighCount()
    ensures CountQuality(WhisperTtsLanguages, "high") == 10
  {
    var q := "high";
    PremiumTierCounts();
    HighTierCounts();
    StandardTierCounts();
    ThreeTiers(q);
  }

  lemma StandardCount()
    ensures CountQuality(WhisperTtsLanguages, "standard") == 18
  {
    var q := "standard";
    PremiumTierCounts();
    HighTierCounts();
    StandardTierCounts();
    ThreeTiers(q);
  }

  lemma PremiumTierCounts()
    ensures CountQuality(PremiumTier, "premium") == 10
    ensures CountQuality(PremiumTier, "high") == 0 && CountQuality(PremiumTier, "standard") == 0
  {
    TierQualities();
    TierCount(PremiumTier, "premium", "high", "standard");
  }

  lemma HighTierCounts()
    ensures CountQuality(HighTier, "high") == 10
    ensures CountQuality(HighTier, "premium") == 0 && CountQuality(HighTier, "standard") == 0
  {
    TierQualities();
    TierCount(HighTier, "high", "premium", "standard");
  }

  lemma StandardTierCounts()
    ensures CountQuality(StandardTier, "standard") == 18
    ensures CountQuality(StandardTier, "premium") == 0 && CountQuality(StandardTier, "high") == 0
  {
    TierQualities();
    TierCount(StandardTier, "standard", "premium", "high");
  }

  lemma TierQualities()
    ensures forall i :: 0 <= i < |PremiumTier| ==> PremiumTier[i].1.quality == "premium"
    ensures forall i :: 0 <= i < |HighTier| ==> HighTier[i].1.quality == "high"
    ensures forall i :: 0 <= i < |StandardTier| ==> StandardTier[i].1.quality == "standard"
  {
  }

  lemma ThreeTiers(q: string)
    ensures CountQuality(WhisperTtsLanguages, q) ==
      CountQuality(PremiumTier, q) + CountQuality(HighTier, q) + CountQuality(StandardTier, q)
  {
    CountQualityAppend(PremiumTier + HighTier, StandardTier, q);
    CountQualityAppend(PremiumTier, HighTier, q);
  }

  lemma TierCount(tier: Table, quality: string, other1: string, other2: string)
    requires forall i :: 0 <= i < |tier| ==> tier[i].1.quality == quality
    requires other1 != quality && other2 != quality
    ensures CountQuality(tier, quality) == |tier| && CountQuality(tier, other1) == 0 && CountQuality(tier, other2) == 0
  {
    UniformTierCounts(tier, quality, other1);
    UniformTierCounts(tier, quality, other2);
  }
}
