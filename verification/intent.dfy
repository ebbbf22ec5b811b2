/**
 * The intent classifier of app.py (`classify_intent`): four keyword lists
 * tried in a fixed priority order against the lower-cased text; the first
 * list with a keyword occurring in the text names the intent, and
 * `general_inquiry` is the fallback.
 */
module IntentClassifier {
  import opened Text

  datatype Intent = Navigation | DataDownload | TechnicalSpecs | Geospatial | GeneralInquiry

  /** The label string the application stores for each intent. */
  function Label(i: Intent): string
  {
    match i
    case Navigation => "navigation"
    case DataDownload => "data_download"
    case TechnicalSpecs => "technical_specs"
    case Geospatial => "geospatial"
    case GeneralInquiry => "general_inquiry"
  }

  const NavigationWords: seq<string> := ["navigate", "find", "where", "how to get", "access"]
  const DownloadWords: seq<string> := ["download", "get data", "retrieve"]
  const SpecsWords: seq<string> := ["format", "specification", "resolution", "coverage"]
  const GeospatialWords: seq<string> := ["location", "region", "coordinate", "lat", "lon"]

  /** The keyword list of each intent; the fallback has none. */
  function Keywords(i: Intent): seq<string>
  {
    match i
    case Navigation => NavigationWords
    case DataDownload => DownloadWords
    case TechnicalSpecs => SpecsWords
    case Geospatial => GeospatialWords
    case GeneralInquiry => []
  }

  /** Position in the order in which the lists are tried; lower is tried first. */
  function Priority(i: Intent): nat
  {
    match i
    case Navigation => 0
    case DataDownload => 1
    case TechnicalSpecs => 2
    case Geospatial => 3
    case GeneralInquiry => 4
  }

  /** Python's `any(word in s for word in words)`. */
  function AnyContains(words: seq<string>, s: string): (r: bool)
    ensures r <==> exists w :: w in words && Occurs(w, s)
  {
    if words == [] then
      false
    else
      assert words == [words[0]] + words[1..];
      Contains(words[0], s) || AnyContains(words[1..], s)
  }

  /** `classify_intent`: the if/elif chain over the lower-cased text. */
  function ClassifyIntent(text: string): Intent
  {
    var lowered := Lower(text);
    if AnyContains(NavigationWords, lowered) then Navigation
    else if AnyContains(DownloadWords, lowered) then DataDownload
    else if AnyContains(SpecsWords, lowered) then TechnicalSpecs
    else if AnyContains(GeospatialWords, lowered) then Geospatial
    else GeneralInquiry
  }

  /** Some keyword of intent `i` occurs in `lowered`. */
  ghost predicate Fires(i: Intent, lowered: string)
  {
    exists w :: w in Keywords(i) && Occurs(w, lowered)
  }

  /**
   * The reference rule: `i` is the answer when its list fires (or it is the
   * fallback) and no list of higher priority fires.
   */
  ghost predicate FirstToFire(i: Intent, lowered: string)
  {
    (i == GeneralInquiry || Fires(i, lowered))
    && forall j :: Priority(j) < Priority(i) ==> !Fires(j, lowered)
  }

  /** Each intent's list fires exactly when the classifier's `any(...)` test for it succeeds. */
  lemma FiresIsAnyContains(lowered: string)
    ensures Fires(Navigation, lowered) == AnyContains(NavigationWords, lowered)
    ensures Fires(DataDownload, lowered) == AnyContains(DownloadWords, lowered)
    ensures Fires(TechnicalSpecs, lowered) == AnyContains(SpecsWords, lowered)
    ensures Fires(Geospatial, lowered) == AnyContains(GeospatialWords, lowered)
    ensures !Fires(GeneralInquiry, lowered)
  {
  }

  /** The priority rule spelled out intent by intent. */
  lemma FirstToFireCases(i: Intent, lowered: string)
    ensures FirstToFire(i, lowered) <==>
      var nav, dl, spec, geo := Fires(Navigation, lowered), Fires(DataDownload, lowered),
                                Fires(TechnicalSpecs, lowered), Fires(Geospatial, lowered);
      match i
      case Navigation => nav
      case DataDownload => !nav && dl
      case TechnicalSpecs => !nav && !dl && spec
      case Geospatial => !nav && !dl && !spec && geo
      case GeneralInquiry => !nav && !dl && !spec && !geo
  {
    assert !Fires(GeneralInquiry, lowered);
  }

  /** The classifier returns exactly the intent the priority rule picks, and no other. */
  lemma ClassifyIsFirstToFire(text: string, i: Intent)
    ensures FirstToFire(i, Lower(text)) <==> i == ClassifyIntent(text)
  {
    var lowered := Lower(text);
    FiresIsAnyContains(lowered);
    FirstToFireCases(i, lowered);
  }

  /** The fallback is returned exactly when no keyword of any list occurs. */
  lemma ClassifyGeneralInquiry(text: string)
    ensures ClassifyIntent(text) == GeneralInquiry <==> forall i :: !Fires(i, Lower(text))
  {
    ClassifyIsFirstToFire(text, GeneralInquiry);
    var r := ClassifyIntent(text);
    if r != GeneralInquiry {
      ClassifyIsFirstToFire(text, r);
    }
  }

  /** A non-fallback answer is backed by one of its own keywords occurring in the text. */
  lemma ClassifyHasWitness(text: string)
    requires ClassifyIntent(text) != GeneralInquiry
    ensures exists w :: w in Keywords(ClassifyIntent(text)) && Occurs(w, Lower(text))
  {
    ClassifyIsFirstToFire(text, ClassifyIntent(text));
  }

  /** Case insensitivity: lower-casing the text first changes nothing. */
  lemma ClassifyIgnoresCase(text: string)
    ensures ClassifyIntent(Lower(text)) == ClassifyIntent(text)
  {
    LowerIdempotent(text);
  }

  /** Every intent has one of the five labels, and distinct intents have distinct labels. */
  lemma LabelInjective(i: Intent, j: Intent)
    ensures Label(i) in ["navigation", "data_download", "technical_specs", "geospatial", "general_inquiry"]
    ensures Label(i) == Label(j) <==> i == j
  {
  }
}
