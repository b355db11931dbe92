/** The voice catalog (`MODELS`) and the choice of a voice for a text: the
    language detector's code, cut to two characters, when the catalog has that
    key, and English otherwise. */
module Voices {
  import opened Strings

  /** A catalog entry: the synthesis model file and its model-config file. */
  datatype Voice = Voice(model: string, config: string)

  type Catalog = map<string, Voice>

  /** The language every failed or unknown detection falls back to. */
  const Fallback: string := "en"

  /** The table written to `models.json` on first start and used whenever that file cannot be read. */
  function DefaultCatalog(): (c: Catalog)
    ensures Fallback in c
  {
    map[
      "it" := Voice("it_IT-paola-medium.onnx", "it_IT-paola-medium.onnx.json"),
      "en" := Voice("en_US-amy-medium.onnx", "en_US-amy-medium.onnx.json"),
      "fr" := Voice("fr_FR-siwis-medium.onnx", "fr_FR-siwis-medium.onnx.json"),
      "de" := Voice("de_DE-thorsten-medium.onnx", "de_DE-thorsten-medium.onnx.json"),
      "es" := Voice("es_ES-davefx-medium.onnx", "es_ES-davefx-medium.onnx.json"),
      "zh" := Voice("zh_CN-huayan-medium.onnx", "zh_CN-huayan-medium.onnx.json"),
      "ar" := Voice("ar_JO-kareem-medium.onnx", "ar_JO-kareem-medium.onnx.json"),
      "ru" := Voice("ru_RU-irina-medium.onnx", "ru_RU-irina-medium.onnx.json"),
      "pt" := Voice("pt_PT-caito-medium.onnx", "pt_PT-caito-medium.onnx.json")
    ]
  }

  /** What `langdetect.detect(text)` gave: a language code, or `LangDetectException`. */
  datatype Detection = Detected(code: string) | Undetectable

  /** The language a text is spoken in, given what the detector said about it. */
  function ResolveLanguage(detection: Detection, catalog: Catalog): (lang: string)
    ensures lang in catalog || lang == Fallback
  {
    if detection.Detected? && Prefix(detection.code, 2) in catalog then Prefix(detection.code, 2)
    else Fallback
  }

  /** A detected language is kept exactly when its two-letter prefix is in the catalog;
      everything else, a failed detection included, is spoken in English. */
  lemma ResolveLanguageFollowsDetection(detection: Detection, catalog: Catalog)
    ensures detection.Detected? && Prefix(detection.code, 2) in catalog
            ==> ResolveLanguage(detection, catalog) == Prefix(detection.code, 2)
    ensures ResolveLanguage(detection, catalog) != Fallback
            ==> detection.Detected? && ResolveLanguage(detection, catalog) == Prefix(detection.code, 2)
    ensures detection.Undetectable? ==> ResolveLanguage(detection, catalog) == Fallback
  {
  }

  /** The lookup `MODELS[lang]` can fail only for the English fallback, and only when the catalog lacks it. */
  lemma LookupFailsOnlyWithoutFallback(detection: Detection, catalog: Catalog)
    ensures ResolveLanguage(detection, catalog) !in catalog
            <==> Fallback !in catalog && ResolveLanguage(detection, catalog) == Fallback
  {
  }

  /** The built-in table covers these nine languages, English among them. */
  lemma DefaultCatalogLanguages()
    ensures DefaultCatalog().Keys == {"it", "en", "fr", "de", "es", "zh", "ar", "ru", "pt"}
  {
  }

  /** Every key of the built-in table is a two-letter code, the length the detector's
      result is cut to, so each entry can be selected. */
  lemma DefaultCatalogWellFormed(lang: string)
    requires lang in DefaultCatalog()
    ensures |lang| == 2
  {
    DefaultCatalogLanguages();
    assert lang in {"it", "en", "fr", "de", "es", "zh", "ar", "ru", "pt"};
  }

  /** The built-in English voice, the one every fallback speaks with. */
  lemma DefaultCatalogEnglish()
    ensures DefaultCatalog()[Fallback] == Voice("en_US-amy-medium.onnx", "en_US-amy-medium.onnx.json")
  {
  }

  /** With the built-in table: French text gets the French voice, Chinese reported as
      `zh-cn` gets the `zh` voice, Japanese (not in the table) and undetectable text get English. */
  lemma DefaultCatalogScenarios()
    ensures ResolveLanguage(Detected("fr"), DefaultCatalog()) == "fr"
    ensures ResolveLanguage(Detected("zh-cn"), DefaultCatalog()) == "zh"
    ensures ResolveLanguage(Detected("ja"), DefaultCatalog()) == "en"
    ensures ResolveLanguage(Undetectable, DefaultCatalog()) == "en"
  {
    assert Prefix("zh-cn", 2) == "zh";
  }
}
