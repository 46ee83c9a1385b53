/**
 * The translation manager (src/manager/mod.rs): a registry from names to
 * translators, with lookup-or-error delegation.
 */
module Manager {
  import opened Basics

  /** A language identifier, represented by its canonical text ("zh", "en-US"). */
  type LanguageId = string

  /**
   * A registered translator, seen only through the three entry points the
   * manager calls; each maps its arguments to a translated text or an error
   * message. The backends behind them are opaque here.
   */
  datatype Translator = Translator(
    translate: (string, string) -> Result<string, string>,
    translateLangid: (string, LanguageId) -> Result<string, string>,
    translateWithLangid: (string, Option<LanguageId>, LanguageId) -> Result<string, string>)

  /** The error for a name nobody registered. */
  function NotFound(name: string): (m: string)
    ensures |m| == |name| + 23 && m[..12] == "Translator '" && m[|m| - 11..] == "' not found"
    ensures m[12..|m| - 11] == name
  {
    "Translator '" + name + "' not found"
  }

  /** Distinct names give distinct not-found messages. */
  lemma NotFoundInjective(a: string, b: string)
    requires NotFound(a) == NotFound(b)
    ensures a == b
  {
    assert a == NotFound(a)[12..|NotFound(a)| - 11];
  }

  class TranslationManager {
    var translators: map<string, Translator>

    /** A manager with no translators. */
    constructor()
      ensures translators == map[]
      ensures Names() == {}
    {
      translators := map[];
    }

    /** The registered names. */
    function Names(): set<string>
      reads this
    {
      translators.Keys
    }

    /** Registers `translator` under `name`, replacing whatever had that name. */
    method AddTranslator(name: string, translator: Translator)
      modifies this
      ensures translators == old(translators)[name := translator]
      ensures HasTranslator(name) && Lookup(name) == Success(translator)
      ensures forall n :: n != name ==> HasTranslator(n) == old(HasTranslator(n))
      ensures forall n :: n != name ==> Lookup(n) == old(Lookup(n))
      ensures Names() == old(Names()) + {name}
      ensures old(HasTranslator(name)) ==> Names() == old(Names())
    {
      translators := translators[name := translator];
    }

    /** Whether a translator is registered under `name`. */
    function HasTranslator(name: string): (b: bool)
      reads this
      ensures b <==> name in Names()
    {
      name in translators
    }

    /** The lookup every `translate*` entry point starts with. */
    function Lookup(name: string): (r: Result<Translator, string>)
      reads this
      ensures r.Success? <==> HasTranslator(name)
      ensures r.Success? ==> r.value == translators[name]
      ensures r.Failure? ==> r.error == NotFound(name)
    {
      if name in translators then Success(translators[name]) else Failure(NotFound(name))
    }

    /** Translates with the named translator, or fails without calling any. */
    function Translate(name: string, text: string, targetLang: string): (r: Result<string, string>)
      reads this
      ensures !HasTranslator(name) ==> r == Failure(NotFound(name))
      ensures HasTranslator(name) ==> r == translators[name].translate(text, targetLang)
    {
      match Lookup(name)
      case Failure(e) => Failure(e)
      case Success(t) => t.translate(text, targetLang)
    }

    /** As `Translate`, through the translator's language-identifier entry point. */
    function TranslateLangid(name: string, text: string, targetLang: LanguageId): (r: Result<string, string>)
      reads this
      ensures !HasTranslator(name) ==> r == Failure(NotFound(name))
      ensures HasTranslator(name) ==> r == translators[name].translateLangid(text, targetLang)
    {
      match Lookup(name)
      case Failure(e) => Failure(e)
      case Success(t) => t.translateLangid(text, targetLang)
    }

    /** As `Translate`, passing an optional source language along. */
    function TranslateWithLangid(name: string, text: string, sourceLang: Option<LanguageId>,
                                 targetLang: LanguageId): (r: Result<string, string>)
      reads this
      ensures !HasTranslator(name) ==> r == Failure(NotFound(name))
      ensures HasTranslator(name) ==>
                r == translators[name].translateWithLangid(text, sourceLang, targetLang)
    {
      match Lookup(name)
      case Failure(e) => Failure(e)
      case Success(t) => t.translateWithLangid(text, sourceLang, targetLang)
    }

    /** The three entry points agree on which names fail, and fail the same way. */
    lemma EntryPointsShareLookup(name: string, text: string, source: Option<LanguageId>, target: string)
      ensures !HasTranslator(name) ==>
                Translate(name, text, target) == TranslateLangid(name, text, target)
                == TranslateWithLangid(name, text, source, target)
    {
    }

    /**
     * Every registered name, each exactly once, in an order the map does not
     * promise (the choice below stands for that freedom).
     */
    method ListTranslators() returns (names: seq<string>)
      ensures forall n :: n in names <==> HasTranslator(n)
      ensures forall i, j :: 0 <= i < j < |names| ==> names[i] != names[j]
      ensures |names| == |translators|
    {
      names := [];
      var remaining := translators.Keys;
      while remaining != {}
        invariant remaining <= translators.Keys
        invariant forall n :: n in names <==> n in translators.Keys - remaining
        invariant forall i, j :: 0 <= i < j < |names| ==> names[i] != names[j]
        invariant |names| + |remaining| == |translators.Keys|
        decreases remaining
      {
        var n :| n in remaining;
        assert n !in names;
        names := names + [n];
        remaining := remaining - {n};
      }
    }
  }

  /** The manager's own tests, restated against the contracts above. */
  method ManagerScenario(mock: Translator)
  {
    var manager := new TranslationManager();
    var listed := manager.ListTranslators();
    assert |listed| == 0;
    manager.AddTranslator("mock", mock);
    listed := manager.ListTranslators();
    assert |manager.translators| == 1;
    assert |listed| == 1;
    assert manager.HasTranslator("mock") && !manager.HasTranslator("nonexistent");
    assert manager.Translate("mock", "test", "zh") == mock.translate("test", "zh");
    assert manager.Translate("nonexistent", "test", "zh").Failure?;
  }
}
