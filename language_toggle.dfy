/** The language toggle (`language-toggle`): reads the language the
    translation service is using, switches it on request (also setting the
    document's `lang` attribute and the stored choice), and maps the arrow,
    Home and End keys onto the two languages. */
module LanguageToggle {
  import opened Common

  /** `a || b` on strings: `undefined` and the empty string both fall
      through to the alternative. */
  function OrElse(a: Option<string>, b: string): (r: string)
    ensures a.Some? && a.value != "" ==> r == a.value
    ensures a.None? || a.value == "" ==> r == b
  {
    if a.Some? && a.value != "" then a.value else b
  }

  /** `currentLang`: the service's current language, else its default,
      else Portuguese; English exactly when that text is "en". */
  function CurrentLangOf(current: Option<string>, fallback: Option<string>): (l: Lang)
    ensures l == En <==> OrElse(current, OrElse(fallback, "pt")) == "en"
    ensures current == Some("en") ==> l == En
    ensures current.Some? && current.value != "" && current.value != "en" ==> l == Pt
  {
    if OrElse(current, OrElse(fallback, "pt")) == "en" then En else Pt
  }

  /** A code the service never produces falls back to Portuguese: only the
      exact text "en" selects English, whatever its letter case. */
  lemma OnlyExactEnglish(current: string)
    requires current != "" && current != "en"
    ensures CurrentLangOf(Some(current), Some("en")) == Pt
  {
  }

  /** The language a navigation key selects, if it is one of the four. */
  function KeyTarget(key: string): (t: Option<Lang>)
    ensures t == Some(Pt) <==> key == "ArrowLeft" || key == "Home"
    ensures t == Some(En) <==> key == "ArrowRight" || key == "End"
  {
    if key == "ArrowLeft" || key == "Home" then Some(Pt)
    else if key == "ArrowRight" || key == "End" then Some(En)
    else None
  }

  /** The id of the button that receives focus after a key selection. */
  function ButtonId(l: Lang): (id: string)
    ensures id == "lang-pt" <==> l == Pt
    ensures id == "lang-en" <==> l == En
  {
    assert "lang-pt"[5] != "lang-en"[5];
    match l
    case Pt => "lang-pt"
    case En => "lang-en"
  }

  /** The toggle together with the pieces of the translation service,
      the document and the storage that it reads and writes. */
  class LanguageToggleComponent {
    /** The translation service's `currentLang` and `defaultLang`. */
    var serviceCurrent: Option<string>
    var serviceDefault: Option<string>
    /** `document.documentElement.lang`. */
    var documentLang: string
    /** The `lang` entry of the local storage. */
    var stored: Option<string>
    /** The id of the focused button, if a key moved focus. */
    var focused: Option<string>

    constructor (current: Option<string>, fallback: Option<string>, docLang: string, storedLang: Option<string>)
      ensures serviceCurrent == current && serviceDefault == fallback
      ensures documentLang == docLang && stored == storedLang && focused == None
    {
      serviceCurrent := current;
      serviceDefault := fallback;
      documentLang := docLang;
      stored := storedLang;
      focused := None;
    }

    /** `currentLang`: English exactly when the service's language, else
        its default, else "pt", is "en". */
    function CurrentLang(): (l: Lang)
      reads this
      ensures l == En <==> OrElse(serviceCurrent, OrElse(serviceDefault, "pt")) == "en"
      ensures serviceCurrent == Some("en") ==> l == En
    {
      CurrentLangOf(serviceCurrent, serviceDefault)
    }

    /** `setLang`: nothing happens when `lang` is already current;
        otherwise the service switches, the document is labelled and the
        choice is stored when the storage accepts it. */
    method SetLang(lang: Lang, storageWorks: bool)
      modifies this`serviceCurrent, this`documentLang, this`stored
      ensures CurrentLang() == lang
      ensures old(CurrentLang()) == lang ==>
                serviceCurrent == old(serviceCurrent) && documentLang == old(documentLang) && stored == old(stored)
      ensures old(CurrentLang()) != lang ==>
                serviceCurrent == Some(lang.Code()) && documentLang == lang.DocumentLang() &&
                stored == (if storageWorks then Some(lang.Code()) else old(stored))
    {
      if CurrentLangOf(serviceCurrent, serviceDefault) == lang {
        return;
      }
      serviceCurrent := Some(lang.Code());
      documentLang := lang.DocumentLang();
      if storageWorks {
        stored := Some(lang.Code());
      }
    }

    /** `onKeydown`: one of the four navigation keys selects its language
        and focuses that language's button; other keys are left alone. */
    method OnKeydown(key: string, storageWorks: bool) returns (handled: bool)
      modifies this`serviceCurrent, this`documentLang, this`stored, this`focused
      ensures handled <==> KeyTarget(key).Some?
      ensures !handled ==>
                serviceCurrent == old(serviceCurrent) && documentLang == old(documentLang) &&
                stored == old(stored) && focused == old(focused)
      ensures handled ==> CurrentLang() == KeyTarget(key).value &&
                          focused == Some(ButtonId(KeyTarget(key).value))
      ensures handled && old(CurrentLang()) == KeyTarget(key).value ==>
                serviceCurrent == old(serviceCurrent) && documentLang == old(documentLang) &&
                stored == old(stored)
      ensures handled && old(CurrentLang()) != KeyTarget(key).value ==>
                serviceCurrent == Some(KeyTarget(key).value.Code()) &&
                documentLang == KeyTarget(key).value.DocumentLang() &&
                stored == (if storageWorks then Some(KeyTarget(key).value.Code()) else old(stored))
    {
      if !(key == "ArrowLeft" || key == "ArrowRight" || key == "Home" || key == "End") {
        return false;
      }
      handled := true;
      var next := if key == "ArrowLeft" || key == "Home" then Pt else En;
      SetLang(next, storageWorks);
      focused := Some(ButtonId(next));
    }
  }
}
