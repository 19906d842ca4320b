/**
 * The response formatter: a label picks one of four answer templates, which
 * is filled from the product fields or from a free-text response; any other
 * label gets a fixed apology.
 */
module Formatter {
  import opened Wrappers
  import opened PyStr
  import opened PyDict
  import opened Catalog
  import opened Extractor
  import Intent

  const PriceQuery := "price_query"
  const ProductQuery := "product_query"
  const GeneralHelp := "general_help"
  const General := "general"

  /** The keys of the template table. */
  const TemplateKeys: set<string> := {PriceQuery, ProductQuery, GeneralHelp, General}

  /** The answer to every label outside the template table. */
  const Fallback := "Lo siento, no entendí tu consulta."

  /** The `general_help` template, which has no placeholder. */
  const HelpText := "Puedes preguntarme sobre productos, precios o información general. ¡Estoy aquí para ayudarte!"

  /** The fixed text the `general` template puts before the response. */
  const GeneralLead := "Esto es lo que encontré relacionado con tu consulta:\n"

  /**
   * What a template is filled from: a dict of fields, or a plain string
   * (the raw response of the language model).
   */
  datatype Payload = Fields(fields: Dict) | Text(text: string)

  /** `str(d)` for a dict of strings: `{'k': 'v', ...}` in insertion order. */
  function Repr(d: Dict): (r: string)
    ensures |r| >= 2 && r[0] == '{' && r[|r| - 1] == '}'
    ensures |d| == 0 ==> r == "{}"
    ensures |d| > 0 ==> StartsWith(r[1..], EntryRepr(d[0]))
  {
    "{" + Join(seq(|d|, i requires 0 <= i < |d| => EntryRepr(d[i])), ", ") + "}"
  }

  function EntryRepr(e: (string, string)): string {
    "'" + e.0 + "': '" + e.1 + "'"
  }

  /** `str(payload)`: a string is itself, a dict is its printed form. */
  function Str(data: Payload): string
  {
    match data
    case Fields(d) => Repr(d)
    case Text(t) => t
  }

  /** The text of the `price_query` template before the name. */
  const PriceLead := "El producto '"

  /** The `price_query` template filled in: the name quoted after the lead, the price just before the final stop. */
  function PriceAnswer(name: string, price: string): (r: string)
    ensures StartsWith(r, PriceLead) && OccursAt(r, name, |PriceLead|)
    ensures OccursAt(r, price, |r| - 1 - |price|) && r[|r| - 1] == '.'
  {
    PriceLead + name + "' tiene un precio de " + price + "."
  }

  /** The text of the `product_query` template before the name. */
  const ProductLead := "Aquí tienes información sobre el producto:\nNombre: "

  /** The `product_query` template filled in: the name right after the lead, the categories at the end. */
  function ProductAnswer(name: string, description: string, categories: string): (r: string)
    ensures StartsWith(r, ProductLead) && OccursAt(r, name, |ProductLead|)
    ensures OccursAt(r, categories, |r| - |categories|)
  {
    ProductLead + name + "\nDescripción: " + description + "\nCategorías: " + categories
  }

  /**
   * `respuesta`. The two product templates read the fields with their
   * defaults, which a plain string cannot give (`str` has no `get`). The two
   * general templates accept any payload. Any other label is answered with
   * the apology, whatever the payload.
   */
  function Respuesta(intention: string, data: Payload): (r: Result<string>)
    ensures intention !in TemplateKeys ==> r == Success(Fallback)
    ensures r.Failure? <==> (intention == PriceQuery || intention == ProductQuery) && data.Text?
    ensures r.Failure? ==> r.error == AttributeError
    ensures intention == GeneralHelp ==> r == Success(HelpText)
    ensures intention == General ==> r.Success? && StartsWith(r.value, GeneralLead)
                                     && r.value[|GeneralLead|..] == Str(data)
  {
    if intention == PriceQuery || intention == ProductQuery then
      match data
      case Text(_) => Failure(AttributeError)
      case Fields(d) =>
        var name := GetOr(d, NameKey, NotAvailable);
        var price := GetOr(d, PriceKey, NotAvailable);
        var description := GetOr(d, DescriptionKey, NotAvailable);
        var categories := GetOr(d, CategoriesKey, NoCategories);
        if intention == PriceQuery then Success(PriceAnswer(name, price))
        else Success(ProductAnswer(name, description, categories))
    else if intention == GeneralHelp then
      Success(HelpText)
    else if intention == General then
      Success(GeneralLead + Str(data))
    else
      Success(Fallback)
  }

  /**
   * A field the dict lacks shows up as its sentinel: "N/A" for the name, the
   * price and the description, "Sin categorías" for the categories; a field
   * it holds shows up as it is.
   */
  lemma Defaults(d: Dict)
    ensures Respuesta(PriceQuery, Fields(d)) ==
            Success(PriceAnswer(GetOr(d, NameKey, NotAvailable), GetOr(d, PriceKey, NotAvailable)))
    ensures Respuesta(ProductQuery, Fields(d)) ==
            Success(ProductAnswer(GetOr(d, NameKey, NotAvailable), GetOr(d, DescriptionKey, NotAvailable),
                                  GetOr(d, CategoriesKey, NoCategories)))
    ensures NameKey !in Keys(d) ==> GetOr(d, NameKey, NotAvailable) == "N/A"
    ensures PriceKey !in Keys(d) ==> GetOr(d, PriceKey, NotAvailable) == "N/A"
    ensures DescriptionKey !in Keys(d) ==> GetOr(d, DescriptionKey, NotAvailable) == "N/A"
    ensures CategoriesKey !in Keys(d) ==> GetOr(d, CategoriesKey, NoCategories) == "Sin categorías"
    ensures forall k :: k in Keys(d) ==> GetOr(d, k, NotAvailable) == GetOr(d, k, NoCategories) == Get(d, k).value
  {
  }

  /** With no fields at all, both product templates are filled with sentinels only. */
  lemma EmptyFields()
    ensures Respuesta(PriceQuery, Fields([])) == Success("El producto 'N/A' tiene un precio de N/A.")
    ensures Respuesta(ProductQuery, Fields([])) == Success(ProductAnswer("N/A", "N/A", "Sin categorías"))
  {
    Defaults([]);
    SentinelPriceText();
  }

  /** The price template filled with the name and price sentinels, spelled out. */
  lemma SentinelPriceText()
    ensures PriceAnswer(NotAvailable, NotAvailable) == "El producto 'N/A' tiene un precio de N/A."
  {
  }

  /** No label the classifier returns is a template key. */
  lemma LabelsAreNotTemplates()
    ensures Intent.Labels !! TemplateKeys
  {
  }

  /** So every classifier label, given to the formatter, lands in the apology. */
  lemma ClassifiedFallsThrough(question: string, data: Payload)
    ensures Respuesta(Intent.Classify(question), data) == Success(Fallback)
  {
    LabelsAreNotTemplates();
  }

  /**
   * The answers to a price or a product question about the block of a
   * product whose fields are clean quote that product's own fields.
   */
  lemma AnswersFromBlock(p: Product, rest: seq<string>)
    requires Clean(NameOf(p), ProductTag) && Clean(PriceOf(p), PriceTag)
    requires Clean(DescriptionOf(p), DescriptionTag) && Clean(CategoriesText(p), CategoriesTag)
    ensures Respuesta(PriceQuery, Fields(Extract([Serialize(p)] + rest))) ==
            Success(PriceAnswer(NameOf(p), PriceOf(p)))
    ensures Respuesta(ProductQuery, Fields(Extract([Serialize(p)] + rest))) ==
            Success(ProductAnswer(NameOf(p), DescriptionOf(p), CategoriesText(p)))
  {
    var d := Extract([Serialize(p)] + rest);
    assert d == [(NameKey, NameOf(p)), (PriceKey, PriceOf(p)),
                 (DescriptionKey, DescriptionOf(p)), (CategoriesKey, CategoriesText(p))] by {
      assert ([Serialize(p)] + rest)[0] == Serialize(p);
      RoundTrip(p);
    }
    FourFields(NameOf(p), PriceOf(p), DescriptionOf(p), CategoriesText(p));
    Defaults(d);
  }

  /** The four-entry dict of a parsed block gives each field back under its key. */
  lemma FourFields(name: string, price: string, description: string, categories: string)
    ensures var d := [(NameKey, name), (PriceKey, price), (DescriptionKey, description), (CategoriesKey, categories)];
      && GetOr(d, NameKey, NotAvailable) == name && GetOr(d, PriceKey, NotAvailable) == price
      && GetOr(d, DescriptionKey, NotAvailable) == description
      && GetOr(d, CategoriesKey, NoCategories) == categories
  {
    var d := [(NameKey, name), (PriceKey, price), (DescriptionKey, description), (CategoriesKey, categories)];
    var d1 := [(PriceKey, price), (DescriptionKey, description), (CategoriesKey, categories)];
    var d2 := [(DescriptionKey, description), (CategoriesKey, categories)];
    var d3 := [(CategoriesKey, categories)];
    assert d[1..] == d1 && d1[1..] == d2 && d2[1..] == d3;
    assert Get(d, PriceKey) == Get(d1, PriceKey) == Some(price);
    assert Get(d, DescriptionKey) == Get(d1, DescriptionKey) == Get(d2, DescriptionKey) == Some(description);
    assert Get(d, CategoriesKey) == Get(d1, CategoriesKey) == Get(d2, CategoriesKey) == Get(d3, CategoriesKey);
  }
}
