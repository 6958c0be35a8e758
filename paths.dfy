/** Locale-qualified paths: the keys of every state-store and widget-state map. */
module Paths {

  /** The locale of an app without internationalisation; its paths carry no prefix. */
  const DummyLocale: string := "xx-XX"

  /**
   * `PathMaybeWithLocale::new`: a path without a locale, qualified by a locale.
   */
  function Localize(path: string, locale: string): (r: string)
    ensures locale == DummyLocale ==> r == path
    ensures locale != DummyLocale ==> locale + "/" <= r && r[|locale| + 1..] == path
  {
    if locale == DummyLocale then path else locale + "/" + path
  }

  /** Within one locale, distinct paths stay distinct once localised. */
  lemma LocalizeInjective(p: string, q: string, locale: string)
    requires Localize(p, locale) == Localize(q, locale)
    ensures p == q
  {
    if locale != DummyLocale {
      calc {
        p;
        Localize(p, locale)[|locale| + 1..];
        Localize(q, locale)[|locale| + 1..];
        q;
      }
    }
  }
}
