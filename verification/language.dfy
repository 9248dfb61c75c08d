/** The language middleware: which language a request is answered in, and when the cookie is rewritten. */
module Language {
  import opened Wrappers
  import opened Text

  /** The configured `supportedLngs`. */
  const Supported: seq<string> := ["en", "es", "fr"]
  const DefaultLanguage := "en"

  /**
   * JavaScript's `a || b || ... || default` over strings: the first non-empty
   * candidate, or `default` when every candidate is empty.
   */
  function FirstNonEmpty(candidates: seq<string>, default: string): (r: string)
    ensures r == default || r in candidates
    ensures (forall i :: 0 <= i < |candidates| ==> candidates[i] == "") ==> r == default
    ensures forall k :: 0 <= k < |candidates| && candidates[k] != "" && (forall j :: 0 <= j < k ==> candidates[j] == "") ==>
              r == candidates[k]
  {
    if candidates == [] then default
    else if candidates[0] != "" then candidates[0]
    else
      var tail := candidates[1..];
      var r := FirstNonEmpty(tail, default);
      assert forall k :: 1 <= k < |candidates| ==> candidates[k] == tail[k - 1];
      r
  }

  /** The language the request asks for: query `lng`, then the first comma-separated Accept-Language segment, then the `lng` cookie. */
  function Requested(query: Option<string>, acceptLanguage: Option<string>, cookie: Option<string>): string {
    var header := if acceptLanguage.Some? then FirstSegment(acceptLanguage.value, ',') else "";
    FirstNonEmpty([query.GetOr(""), header, cookie.GetOr("")], DefaultLanguage)
  }

  datatype LanguageChoice = LanguageChoice(language: string, writeCookie: bool)

  /**
   * `languageMiddleware`: the requested language when it is supported, `en`
   * otherwise; the `lng` cookie is written exactly when it does not already
   * hold the chosen language. `req.language` is set to the choice.
   */
  function ChooseLanguage(query: Option<string>, acceptLanguage: Option<string>, cookie: Option<string>): (r: LanguageChoice)
    ensures r.language in Supported
    ensures var asked := Requested(query, acceptLanguage, cookie);
            r.language == if asked in Supported then asked else DefaultLanguage
    ensures r.writeCookie <==> cookie != Some(r.language)
  {
    var asked := Requested(query, acceptLanguage, cookie);
    var language := if asked in Supported then asked else DefaultLanguage;
    LanguageChoice(language, cookie != Some(language))
  }

  /** A non-empty query `lng` decides alone: unsupported, it gives `en` even when the cookie names a supported language. */
  lemma QueryDecides(q: string, acceptLanguage: Option<string>, cookie: Option<string>)
    requires q != ""
    ensures ChooseLanguage(Some(q), acceptLanguage, cookie).language == if q in Supported then q else DefaultLanguage
  {
    var header := if acceptLanguage.Some? then FirstSegment(acceptLanguage.value, ',') else "";
    var cs := [q, header, cookie.GetOr("")];
    assert cs[0] != "";
  }

  /** Without a query, a non-empty first header segment decides alone, verbatim. */
  lemma HeaderDecides(acceptLanguage: string, cookie: Option<string>)
    requires FirstSegment(acceptLanguage, ',') != ""
    ensures var seg := FirstSegment(acceptLanguage, ',');
            ChooseLanguage(None, Some(acceptLanguage), cookie).language == if seg in Supported then seg else DefaultLanguage
  {
    var cs := ["", FirstSegment(acceptLanguage, ','), cookie.GetOr("")];
    assert cs[1] != "";
  }

  /** Without a query or a header, the cookie decides; with nothing at all the answer is `en`. */
  lemma CookieDecides(cookie: Option<string>)
    ensures var c := cookie.GetOr("");
            ChooseLanguage(None, None, cookie).language == if c in Supported then c else DefaultLanguage
  {
    var cs := ["", "", cookie.GetOr("")];
    if cookie.GetOr("") != "" {
      assert cs[2] != "";
    }
  }

  /** The header is not parsed further: a region tag makes the first segment unsupported, so French is not chosen. */
  lemma RegionTagIsUnsupported()
    ensures ChooseLanguage(None, Some("fr-FR,fr"), None).language == "en"
  {
    FirstSegmentExample("fr-FR,fr", "fr-FR");
    HeaderDecides("fr-FR,fr", None);
  }

  /** A quality value stays part of the segment and makes it unsupported. */
  lemma QualityValueIsUnsupported()
    ensures ChooseLanguage(None, Some("fr;q=0.9"), None).language == "en"
  {
    FirstSegmentExample("fr;q=0.9", "fr;q=0.9");
    HeaderDecides("fr;q=0.9", None);
  }

  /** A plain supported first segment is chosen, whatever follows the comma and whatever the cookie says. */
  lemma PlainSegmentIsChosen(l: string, rest: string, cookie: Option<string>)
    requires l in Supported
    ensures ChooseLanguage(None, Some(l + "," + rest), cookie).language == l
  {
    var s := l + "," + rest;
    assert ',' !in l && l != "";
    assert s[..|l|] == l && s[|l|] == ',';
    FirstSegmentExample(s, l);
    HeaderDecides(s, cookie);
  }

  /** The first segment is fixed by where the first comma stands. */
  lemma FirstSegmentExample(s: string, seg: string)
    requires |seg| <= |s| && s[..|seg|] == seg && ',' !in seg
    requires |seg| < |s| ==> s[|seg|] == ','
    ensures FirstSegment(s, ',') == seg
  {
  }
}
