/**
 * The intent classifier: a question is lower-cased and then tested for
 * keywords, list by list in a fixed order; the first list with a hit names
 * the intent.
 */
module Intent {
  import opened PyStr

  const SearchProduct := "search_product"
  const ListCategories := "list_categories"
  const CheckPromotions := "check_promotions"
  const UnknownIntent := "unknown_intent"

  /** Every label the classifier can return. */
  const Labels: set<string> := {SearchProduct, ListCategories, CheckPromotions, UnknownIntent}

  const ProductKeywords: seq<string> :=
    ["buscar", "tienes", "producto", "disponible", "tienda", "pagina", "precio", "comprar", "encontrar"]
  // 'í' in "categorías" is the single code point U+00ED, outside ASCII.
  const CategoryKeywords: seq<string> :=
    ["categorías", "tipos de producto", "clases de producto", "variedad"]
  const PromotionKeywords: seq<string> := ["promociones", "ofertas", "descuentos"]

  /** `any(keyword in question for keyword in keywords)`, list by list. */
  predicate ContainsAny(question: string, keywords: seq<string>)
    decreases |keywords|
  {
    |keywords| > 0 && (Contains(question, keywords[0]) || ContainsAny(question, keywords[1..]))
  }

  /** Some keyword of the list occurs in the question. */
  ghost predicate HasKeyword(question: string, keywords: seq<string>) {
    exists j :: 0 <= j < |keywords| && Contains(question, keywords[j])
  }

  lemma {:induction false} ContainsAnyIff(question: string, keywords: seq<string>)
    ensures ContainsAny(question, keywords) <==> HasKeyword(question, keywords)
    decreases |keywords|
  {
    if |keywords| > 0 {
      ContainsAnyIff(question, keywords[1..]);
      if HasKeyword(question, keywords[1..]) {
        var j :| 0 <= j < |keywords[1..]| && Contains(question, keywords[1..][j]);
        assert Contains(question, keywords[j + 1]);
      }
      if HasKeyword(question, keywords) && !Contains(question, keywords[0]) {
        var j :| 0 <= j < |keywords| && Contains(question, keywords[j]);
        assert j > 0 && keywords[1..][j - 1] == keywords[j];
      }
    }
  }

  /** The keyword tests on a question that is already lower-case. */
  function ClassifyLowered(q: string): (r: string)
    ensures r in Labels
    ensures r == UnknownIntent <==>
              !ContainsAny(q, ProductKeywords) && !ContainsAny(q, CategoryKeywords)
              && !ContainsAny(q, PromotionKeywords)
  {
    if ContainsAny(q, ProductKeywords) then SearchProduct
    else if ContainsAny(q, CategoryKeywords) then ListCategories
    else if ContainsAny(q, PromotionKeywords) then CheckPromotions
    else UnknownIntent
  }

  /** `clasificar_intension`: always one of the four labels. */
  function Classify(question: string): (r: string)
    ensures r in Labels
  {
    ClassifyLowered(Lower(question))
  }

  /**
   * The lists are tried in order: a product keyword wins over everything, a
   * category keyword over a promotion keyword, and the default is returned
   * only when no keyword of any list occurs in the lower-cased question.
   */
  lemma Priority(question: string)
    ensures var q := Lower(question);
      && (Classify(question) == SearchProduct <==> HasKeyword(q, ProductKeywords))
      && (Classify(question) == ListCategories <==>
            !HasKeyword(q, ProductKeywords) && HasKeyword(q, CategoryKeywords))
      && (Classify(question) == CheckPromotions <==>
            !HasKeyword(q, ProductKeywords) && !HasKeyword(q, CategoryKeywords)
            && HasKeyword(q, PromotionKeywords))
      && (Classify(question) == UnknownIntent <==>
            !HasKeyword(q, ProductKeywords) && !HasKeyword(q, CategoryKeywords)
            && !HasKeyword(q, PromotionKeywords))
  {
    var q := Lower(question);
    ContainsAnyIff(q, ProductKeywords);
    ContainsAnyIff(q, CategoryKeywords);
    ContainsAnyIff(q, PromotionKeywords);
  }

  /** Case does not matter: a lower-cased question is classified like the original. */
  lemma IgnoresCase(question: string)
    ensures Classify(Lower(question)) == Classify(question)
  {
    LowerIdempotent(question);
  }

  /**
   * The category phrases "tipos de producto" and "clases de producto" contain
   * the product keyword "producto", so a question holding either of them is
   * always a product search: of the category list only "categorías" and
   * "variedad" can ever decide the label.
   */
  lemma CategoryPhrasesShadowed(question: string)
    requires Contains(Lower(question), "tipos de producto") || Contains(Lower(question), "clases de producto")
    ensures Classify(question) == SearchProduct
  {
    var q := Lower(question);
    PhrasesEndInProducto();
    if Contains(q, "tipos de producto") {
      ShadowedBy(q, "tipos de ");
    } else {
      ShadowedBy(q, "clases de ");
    }
  }

  /** Both category phrases end in the product keyword "producto". */
  lemma PhrasesEndInProducto()
    ensures "tipos de producto" == "tipos de " + ProductKeywords[2]
    ensures "clases de producto" == "clases de " + ProductKeywords[2]
  {
  }

  /** A question holding the product keyword "producto" after some lead is a product search. */
  lemma ShadowedBy(q: string, lead: string)
    requires Contains(q, lead + ProductKeywords[2])
    ensures ClassifyLowered(q) == SearchProduct
  {
    ContainsSuffix(q, lead, ProductKeywords[2]);
    ContainsAnyIff(q, ProductKeywords);
  }

  /** No keyword of a list without empty keywords occurs in the empty string. */
  lemma {:induction false} NothingInEmpty(keywords: seq<string>)
    requires "" !in keywords
    ensures !ContainsAny("", keywords)
    decreases |keywords|
  {
    if |keywords| > 0 {
      NothingInEmpty(keywords[1..]);
    }
  }

  /** The empty question holds no keyword and gets the default label. */
  lemma EmptyQuestion()
    ensures Classify("") == UnknownIntent
  {
    assert Lower("") == "";
    NothingInEmpty(ProductKeywords);
    NothingInEmpty(CategoryKeywords);
    NothingInEmpty(PromotionKeywords);
  }
}
