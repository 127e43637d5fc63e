/**
 * Texts and keys of the language-selection screens
 * (features/language-selection/utils/index.tsx). The language constants
 * live in a constants file that is not part of this model, so constants
 * appear here by their names.
 */
module LanguageSelection {
  import opened Wrappers
  import Js

  /** A language code: one of the three the app knows, or any other string. */
  datatype Language = Tamil | Telugu | English | OtherLanguage(code: string)

  /** A text shown: a named constant of the app, or a value of the localized strings table. */
  datatype Text = Constant(name: string) | Localized(value: Js.Value)

  datatype Screen = ContentLanguageScreen | AppLanguageScreen(name: string)

  /** `getLanguageDesc`: on the content screen Tamil or else Telugu; elsewhere the known language's description, or none. */
  function GetLanguageDesc(screen: Screen, language: Language): (r: Option<Text>)
    ensures screen.ContentLanguageScreen? ==> r.Some? && (r.value == Constant("CONTENT_LANGUAGE_TAMIL") <==> language == Tamil)
    ensures screen.ContentLanguageScreen? && language != Tamil ==> r == Some(Constant("CONTENT_LANGUAGE_TELUGU"))
    ensures screen.AppLanguageScreen? ==> (r.None? <==> language.OtherLanguage?)
  {
    if screen.ContentLanguageScreen? then
      Some(if language == Tamil then Constant("CONTENT_LANGUAGE_TAMIL") else Constant("CONTENT_LANGUAGE_TELUGU"))
    else
      match language
      case Tamil => Some(Constant("APP_LANGUAGE_TAMIL_REGIONAL_DESC"))
      case Telugu => Some(Constant("APP_LANGUAGE_TELUGU_REGIONAL_DESC"))
      case English => Some(Constant("APP_LANGUAGE_ENGLISH_DESC"))
      case OtherLanguage(_) => None
  }

  /**
   * On the app-language screen the three known languages get three different
   * descriptions. This is about the constant names: their localized values are
   * not part of the model.
   */
  lemma AppLanguageDescriptionsDistinct(name: string, a: Language, b: Language)
    requires !a.OtherLanguage? && !b.OtherLanguage?
    ensures GetLanguageDesc(AppLanguageScreen(name), a) == GetLanguageDesc(AppLanguageScreen(name), b) <==> a == b
  {
  }

  /** `getTitleForLanguage`: Tamil and Telugu have their own titles; every other language shows the English title. */
  function GetTitleForLanguage(strings: Js.Object, language: Language): (r: Text)
    ensures language != Tamil && language != Telugu ==> r == Localized(Js.Get(strings, "app_language.english_title"))
    ensures language == Tamil || language == Telugu ==> r.Constant?
    ensures language == Tamil ==> r == Constant("APP_LANGUAGE_TAMIL_TITLE")
    ensures language == Telugu ==> r == Constant("APP_LANGUAGE_TELUGU_TITLE")
  {
    match language
    case Tamil => Constant("APP_LANGUAGE_TAMIL_TITLE")
    case Telugu => Constant("APP_LANGUAGE_TELUGU_TITLE")
    case English => Localized(Js.Get(strings, "app_language.english_title"))
    case OtherLanguage(_) => Localized(Js.Get(strings, "app_language.english_title"))
  }

  /** `getHighLightableWordForLanguage`: one word, the localized `content` string unless Tamil or Telugu. */
  function GetHighlightableWords(strings: Js.Object, language: Language): (r: seq<Text>)
    ensures |r| == 1
    ensures language != Tamil && language != Telugu ==> r[0] == Localized(Js.Get(strings, "content"))
    ensures language == Tamil ==> r[0] == Constant("APP_LANGUAGE_TAMIL_HIGHLIGHT_TEXT1")
    ensures language == Telugu ==> r[0] == Constant("APP_LANGUAGE_TELUGU_HIGHLIGHT_TEXT1")
  {
    match language
    case Tamil => [Constant("APP_LANGUAGE_TAMIL_HIGHLIGHT_TEXT1")]
    case Telugu => [Constant("APP_LANGUAGE_TELUGU_HIGHLIGHT_TEXT1")]
    case English => [Localized(Js.Get(strings, "content"))]
    case OtherLanguage(_) => [Localized(Js.Get(strings, "content"))]
  }

  /** `getLocalizedKey`: the localization key of the language, English for any unknown one. */
  function GetLocalizedKey(language: Language): (r: string)
    ensures language.OtherLanguage? || language == English ==> r == "ENGLISH_LOCALIZATION_KEY"
  {
    match language
    case Tamil => "TAMIL_LOCALIZATION_KEY"
    case Telugu => "TELUGU_LOCALIZATION_KEY"
    case English => "ENGLISH_LOCALIZATION_KEY"
    case OtherLanguage(_) => "ENGLISH_LOCALIZATION_KEY"
  }

  /**
   * The known languages have distinct key names, so only an unknown language
   * shares English's. The values the keys stand for are not part of the model.
   */
  lemma LocalizedKeysDistinct(a: Language, b: Language)
    ensures GetLocalizedKey(a) == GetLocalizedKey(b) <==> a == b || ((a.OtherLanguage? || a == English) && (b.OtherLanguage? || b == English))
  {
  }

  /** `formAppLanguageList`: English first, then the selected content language. */
  method FormAppLanguageList(selectedContentLanguage: Language) returns (appLanguageList: seq<Language>)
    ensures |appLanguageList| == 2
    ensures appLanguageList[0] == English && appLanguageList[1] == selectedContentLanguage
  {
    appLanguageList := [];
    appLanguageList := appLanguageList + [English];
    appLanguageList := appLanguageList + [selectedContentLanguage];
  }
}
