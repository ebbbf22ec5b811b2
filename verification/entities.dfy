/**
 * The entity extractor of app.py (`extract_entities`): case-insensitive
 * substring matching of the user's text against four fixed vocabularies,
 * reporting one (category, term) tag per vocabulary term found.
 */
module EntityExtractor {
  import opened Text

  /** The four tag categories, in the order the extractor scans them. */
  datatype Category = Satellite | Product | Region | Format

  /** A tag: the category and the vocabulary term exactly as listed (upper case). */
  datatype Entity = Entity(category: Category, term: string)

  const Satellites: seq<string> := ["INSAT-3D", "INSAT-3DR", "OCEANSAT", "SCATSAT", "CARTOSAT", "MODIS", "VIIRS"]
  const Products: seq<string> := ["SST", "CHLOROPHYLL", "NDVI", "GSMAP", "RAIN", "TEMPERATURE", "WIND", "HUMIDITY"]
  const Regions: seq<string> := ["INDIA", "INDIAN OCEAN", "ASIA", "GLOBAL", "BAY OF BENGAL", "ARABIAN SEA"]
  const Formats: seq<string> := ["HDF5", "NETCDF", "GEOTIFF", "CSV", "JSON"]

  /** The total number of vocabulary terms, 7 + 8 + 6 + 5. */
  const VocabularySize: nat := 26

  function Vocabulary(c: Category): seq<string>
  {
    match c
    case Satellite => Satellites
    case Product => Products
    case Region => Regions
    case Format => Formats
  }

  /** Position of a category in the scan order. */
  function Rank(c: Category): nat
  {
    match c
    case Satellite => 0
    case Product => 1
    case Region => 2
    case Format => 3
  }

  /** The tag names a term of its own category's vocabulary. */
  predicate InVocabulary(e: Entity)
  {
    e.term in Vocabulary(e.category)
  }

  ghost predicate Distinct(terms: seq<string>)
  {
    forall i, j :: 0 <= i < j < |terms| ==> terms[i] != terms[j]
  }

  /** The first position of `t` in `terms`. */
  function IndexOf(t: string, terms: seq<string>): (k: nat)
    requires t in terms
    ensures k < |terms| && terms[k] == t
    ensures forall j :: 0 <= j < k ==> terms[j] != t
  {
    if terms[0] == t then 0 else 1 + IndexOf(t, terms[1..])
  }

  /**
   * The tags one vocabulary loop emits: in list order, one tag for each
   * term whose lower-cased form occurs in the lower-cased text.
   */
  function Matches(c: Category, terms: seq<string>, lowered: string): seq<Entity>
    decreases |terms|
  {
    if terms == [] then
      []
    else
      var last := terms[|terms| - 1];
      Matches(c, terms[..|terms| - 1], lowered)
        + (if Contains(Lower(last), lowered) then [Entity(c, last)] else [])
  }

  /** What `extract_entities(text)` returns: the four loops, one after the other. */
  function Extracted(text: string): seq<Entity>
  {
    var lowered := Lower(text);
    Matches(Satellite, Satellites, lowered) + Matches(Product, Products, lowered)
      + Matches(Region, Regions, lowered) + Matches(Format, Formats, lowered)
  }

  /** Tag `a` is emitted before tag `b`: earlier category, or same category and earlier term. */
  predicate Precedes(a: Entity, b: Entity)
    requires InVocabulary(a) && InVocabulary(b)
  {
    Rank(a.category) < Rank(b.category)
    || (a.category == b.category
        && IndexOf(a.term, Vocabulary(a.category)) < IndexOf(b.term, Vocabulary(b.category)))
  }

  /** Every tag of `r` names a vocabulary term, and the tags stand in emission order. */
  ghost predicate Ordered(r: seq<Entity>)
  {
    (forall i :: 0 <= i < |r| ==> InVocabulary(r[i]))
    && (forall i, j :: 0 <= i < j < |r| ==> InVocabulary(r[i]) && InVocabulary(r[j]) && Precedes(r[i], r[j]))
  }

  // ---------------------------------------------------------------------------
  // The imperative extractor

  /** One vocabulary loop of `extract_entities`: append a tag for each term found. */
  method AppendMatches(entities: seq<Entity>, c: Category, terms: seq<string>, text: string)
    returns (r: seq<Entity>)
    ensures r == entities + Matches(c, terms, Lower(text))
  {
    r := entities;
    for i := 0 to |terms|
      invariant r == entities + Matches(c, terms[..i], Lower(text))
    {
      assert terms[..i + 1][..i] == terms[..i];
      if Contains(Lower(terms[i]), Lower(text)) {
        r := r + [Entity(c, terms[i])];
      }
    }
    assert terms[..|terms|] == terms;
  }

  /** `extract_entities`: scan satellites, products, regions and formats in turn. */
  method ExtractEntities(text: string) returns (entities: seq<Entity>)
    ensures entities == Extracted(text)
    ensures forall e :: e in entities <==> InVocabulary(e) && Occurs(Lower(e.term), Lower(text))
    ensures |entities| <= VocabularySize
  {
    entities := [];
    entities := AppendMatches(entities, Satellite, Satellites, text);
    entities := AppendMatches(entities, Product, Products, text);
    entities := AppendMatches(entities, Region, Regions, text);
    entities := AppendMatches(entities, Format, Formats, text);
    assert entities == Extracted(text);
    ExtractedProperties(text);
  }

  // ---------------------------------------------------------------------------
  // Properties of one vocabulary loop

  /** A loop emits (c', t) exactly when c' is its category, t is in its list and t occurs. */
  lemma {:induction false} MatchesMember(c: Category, terms: seq<string>, lowered: string, e: Entity)
    ensures e in Matches(c, terms, lowered) <==>
            e.category == c && e.term in terms && Occurs(Lower(e.term), lowered)
    decreases |terms|
  {
    if terms != [] {
      var init, last := terms[..|terms| - 1], terms[|terms| - 1];
      assert terms == init + [last];
      MatchesMember(c, init, lowered, e);
    }
  }

  /** A loop emits at most one tag per term of its list. */
  lemma {:induction false} MatchesLength(c: Category, terms: seq<string>, lowered: string)
    ensures |Matches(c, terms, lowered)| <= |terms|
    decreases |terms|
  {
    if terms != [] {
      MatchesLength(c, terms[..|terms| - 1], lowered);
    }
  }

  /** The first position of a term that occurs in a prefix is the same in the prefix and in the whole list. */
  lemma IndexOfPrefix(t: string, terms: seq<string>, n: nat)
    requires n <= |terms| && t in terms[..n]
    ensures IndexOf(t, terms[..n]) == IndexOf(t, terms)
  {
    var k := IndexOf(t, terms[..n]);
    var k' := IndexOf(t, terms);
    assert terms[k] == t;
    assert k' <= k;
    assert terms[..n][k'] == t;
  }

  /** A loop over a list without repetitions emits its tags in list order. */
  lemma {:induction false} MatchesInListOrder(c: Category, terms: seq<string>, lowered: string)
    requires Distinct(terms)
    ensures var r := Matches(c, terms, lowered);
      forall i, j :: 0 <= i < j < |r| ==>
        r[i].term in terms && r[j].term in terms && IndexOf(r[i].term, terms) < IndexOf(r[j].term, terms)
    decreases |terms|
  {
    if terms != [] {
      var n := |terms| - 1;
      var init, last := terms[..n], terms[n];
      var prev := Matches(c, init, lowered);
      var r := Matches(c, terms, lowered);
      assert Distinct(init);
      MatchesInListOrder(c, init, lowered);
      forall i | 0 <= i < |prev|
        ensures prev[i].term in init && prev[i].term in terms
        ensures IndexOf(prev[i].term, terms) == IndexOf(prev[i].term, init) < n
      {
        MatchesMember(c, init, lowered, prev[i]);
        assert terms[..n] == init;
        IndexOfPrefix(prev[i].term, terms, n);
      }
      forall i, j | 0 <= i < j < |r|
        ensures r[i].term in terms && r[j].term in terms && IndexOf(r[i].term, terms) < IndexOf(r[j].term, terms)
      {
        assert r[i] == prev[i];
        if j < |prev| {
          assert r[j] == prev[j];
        } else {
          assert r[j].term == last;
          assert IndexOf(last, terms) == n;
        }
      }
    }
  }

  /** Every tag a loop emits carries the loop's category. */
  lemma MatchesCategory(c: Category, terms: seq<string>, lowered: string)
    ensures forall e :: e in Matches(c, terms, lowered) ==> e.category == c && e.term in terms
  {
    forall e | e in Matches(c, terms, lowered)
      ensures e.category == c && e.term in terms
    {
      MatchesMember(c, terms, lowered, e);
    }
  }

  // ---------------------------------------------------------------------------
  // Properties of the whole extractor

  /** Exact matching: a tag is reported iff its term is in its category's list and occurs in the text. */
  lemma ExtractedExact(text: string, e: Entity)
    ensures e in Extracted(text) <==> InVocabulary(e) && Occurs(Lower(e.term), Lower(text))
  {
    var lowered := Lower(text);
    MatchesMember(Satellite, Satellites, lowered, e);
    MatchesMember(Product, Products, lowered, e);
    MatchesMember(Region, Regions, lowered, e);
    MatchesMember(Format, Formats, lowered, e);
  }

  /** No tag is reported twice, so at most 26 tags are reported in all. */
  lemma ExtractedLength(text: string)
    ensures |Extracted(text)| <= VocabularySize
  {
    var lowered := Lower(text);
    MatchesLength(Satellite, Satellites, lowered);
    MatchesLength(Product, Products, lowered);
    MatchesLength(Region, Regions, lowered);
    MatchesLength(Format, Formats, lowered);
  }

  lemma VocabulariesDistinct()
    ensures Distinct(Satellites) && Distinct(Products) && Distinct(Regions) && Distinct(Formats)
  {
  }

  /** Joining two ordered runs whose categories are strictly increasing keeps the order. */
  lemma ConcatOrdered(x: seq<Entity>, y: seq<Entity>)
    requires Ordered(x) && Ordered(y)
    requires forall a, b :: a in x && b in y ==> Rank(a.category) < Rank(b.category)
    ensures Ordered(x + y)
  {
    var r := x + y;
    forall i, j | 0 <= i < j < |r|
      ensures InVocabulary(r[i]) && InVocabulary(r[j]) && Precedes(r[i], r[j])
    {
      if j < |x| {
        assert r[i] == x[i] && r[j] == x[j];
      } else if i >= |x| {
        assert r[i] == y[i - |x|] && r[j] == y[j - |x|];
      } else {
        assert r[i] == x[i] && r[j] == y[j - |x|];
        assert r[i] in x && r[j] in y;
      }
    }
  }

  /** One loop's output is ordered when its list is that category's vocabulary. */
  lemma MatchesOrdered(c: Category, terms: seq<string>, lowered: string)
    requires terms == Vocabulary(c) && Distinct(terms)
    ensures Ordered(Matches(c, terms, lowered))
  {
    var r := Matches(c, terms, lowered);
    MatchesInListOrder(c, terms, lowered);
    forall i | 0 <= i < |r|
      ensures r[i].category == c && InVocabulary(r[i])
    {
      MatchesMember(c, terms, lowered, r[i]);
    }
    forall i, j | 0 <= i < j < |r|
      ensures InVocabulary(r[i]) && InVocabulary(r[j]) && Precedes(r[i], r[j])
    {
      assert r[i].category == c && r[j].category == c;
      assert r[i].term in terms && r[j].term in terms && IndexOf(r[i].term, terms) < IndexOf(r[j].term, terms);
    }
  }

  /**
   * Output order: all SATELLITE tags, then PRODUCT, then REGION, then FORMAT;
   * within a category, the vocabulary's list order. Hence no tag repeats.
   */
  lemma ExtractedOrdered(text: string)
    ensures Ordered(Extracted(text))
    ensures forall i, j :: 0 <= i < j < |Extracted(text)| ==> Extracted(text)[i] != Extracted(text)[j]
  {
    var lowered := Lower(text);
    var s, p, g, f := Matches(Satellite, Satellites, lowered), Matches(Product, Products, lowered),
                      Matches(Region, Regions, lowered), Matches(Format, Formats, lowered);
    VocabulariesDistinct();
    MatchesOrdered(Satellite, Satellites, lowered);
    MatchesOrdered(Product, Products, lowered);
    MatchesOrdered(Region, Regions, lowered);
    MatchesOrdered(Format, Formats, lowered);
    MatchesCategory(Satellite, Satellites, lowered);
    MatchesCategory(Product, Products, lowered);
    MatchesCategory(Region, Regions, lowered);
    MatchesCategory(Format, Formats, lowered);
    ConcatOrdered(s, p);
    assert forall a: Entity :: a in s + p ==> Rank(a.category) <= 1;
    ConcatOrdered(s + p, g);
    assert forall a: Entity :: a in s + p + g ==> Rank(a.category) <= 2;
    ConcatOrdered(s + p + g, f);
    assert Extracted(text) == s + p + g + f;
  }

  /** Exact matching, output order and the length bound, together. */
  lemma ExtractedProperties(text: string)
    ensures forall e :: e in Extracted(text) <==> InVocabulary(e) && Occurs(Lower(e.term), Lower(text))
    ensures Ordered(Extracted(text))
    ensures |Extracted(text)| <= VocabularySize
  {
    forall e | true
      ensures e in Extracted(text) <==> InVocabulary(e) && Occurs(Lower(e.term), Lower(text))
    {
      ExtractedExact(text, e);
    }
    ExtractedOrdered(text);
    ExtractedLength(text);
  }

  /** Case insensitivity: lower-casing the text first changes nothing. */
  lemma ExtractedIgnoresCase(text: string)
    ensures Extracted(Lower(text)) == Extracted(text)
  {
    LowerIdempotent(text);
  }

  /**
   * Overlapping terms are not deduplicated: when one vocabulary term contains
   * another, text containing the longer one is tagged with both.
   */
  lemma NestedTermsBothReported(text: string, outer: Entity, inner: Entity)
    requires InVocabulary(outer) && InVocabulary(inner)
    requires Occurs(Lower(inner.term), Lower(outer.term))
    requires Occurs(Lower(outer.term), Lower(text))
    ensures outer in Extracted(text) && inner in Extracted(text)
  {
    OccursTransitive(Lower(inner.term), Lower(outer.term), Lower(text));
    ExtractedExact(text, outer);
    ExtractedExact(text, inner);
  }

  /** Text mentioning INSAT-3DR (in any case) is tagged INSAT-3D as well. */
  lemma InsatOverlap(text: string)
    requires Occurs(Lower("INSAT-3DR"), Lower(text))
    ensures Entity(Satellite, "INSAT-3D") in Extracted(text)
    ensures Entity(Satellite, "INSAT-3DR") in Extracted(text)
  {
    assert OccursAt(Lower("INSAT-3D"), Lower("INSAT-3DR"), 0);
    NestedTermsBothReported(text, Entity(Satellite, "INSAT-3DR"), Entity(Satellite, "INSAT-3D"));
  }

  /** Text mentioning the Indian Ocean (in any case) is tagged INDIA as well. */
  lemma IndianOceanOverlap(text: string)
    requires Occurs(Lower("INDIAN OCEAN"), Lower(text))
    ensures Entity(Region, "INDIA") in Extracted(text)
    ensures Entity(Region, "INDIAN OCEAN") in Extracted(text)
  {
    assert OccursAt(Lower("INDIA"), Lower("INDIAN OCEAN"), 0);
    NestedTermsBothReported(text, Entity(Region, "INDIAN OCEAN"), Entity(Region, "INDIA"));
  }
}
