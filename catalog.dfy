/**
 * The catalog loader: each product of the store's answer becomes one flat
 * text block of four tagged lines, which is the document the similarity
 * index stores.
 */
module Catalog {
  import opened Wrappers
  import opened PyStr

  const ProductTag := "Producto:"
  const PriceTag := "Precio:"
  const DescriptionTag := "Descripción:"   // 'ó' is the single code point U+00F3
  const CategoriesTag := "Categorías:"     // 'í' is the single code point U+00ED

  /** The sentinel for a missing name or price. */
  const NotAvailable := "N/A"
  /** The sentinel for a product without categories. */
  const NoCategories := "Sin categorías"

  /** The HTTP status of a successful catalog request. */
  const StatusOk := 200

  /**
   * One product object of the catalog answer; a field the answer leaves out is
   * `None`. The description is taken as plain text, already stripped of markup,
   * and a category is given by its name.
   */
  datatype Product = Product(
    name: Option<string>,
    price: Option<string>,
    description: Option<string>,
    categories: Option<seq<string>>)

  /** `product.get('name', 'N/A')` */
  function NameOf(p: Product): string
  {
    if p.name.Some? then p.name.value else NotAvailable
  }

  /** `product.get('price', 'N/A')` */
  function PriceOf(p: Product): string
  {
    if p.price.Some? then p.price.value else NotAvailable
  }

  /** `product.get('description', '')`, taken as plain text */
  function DescriptionOf(p: Product): string
  {
    if p.description.Some? then p.description.value else ""
  }

  function CategoryNames(p: Product): seq<string> {
    if p.categories.Some? then p.categories.value else []
  }

  /** The category names joined by ", ", or the sentinel when there are none. */
  function CategoriesText(p: Product): (r: string)
    ensures |CategoryNames(p)| == 0 ==> r == NoCategories
    ensures |CategoryNames(p)| == 1 ==> r == CategoryNames(p)[0]
    ensures |CategoryNames(p)| > 0 ==> StartsWith(r, CategoryNames(p)[0])
  {
    var names := CategoryNames(p);
    if |names| == 0 then NoCategories else Join(names, ", ")
  }

  /** The four lines of a block: a tag, one space, the field. */
  function NameLine(p: Product): string { ProductTag + " " + NameOf(p) }
  function PriceLine(p: Product): string { PriceTag + " " + PriceOf(p) }
  function DescriptionLine(p: Product): string { DescriptionTag + " " + DescriptionOf(p) }
  function CategoriesLine(p: Product): string { CategoriesTag + " " + CategoriesText(p) }

  /** The flat text block of one product: its four lines, separated by line breaks. */
  function Serialize(p: Product): (r: string)
    ensures r == Join([NameLine(p), PriceLine(p), DescriptionLine(p), CategoriesLine(p)], "\n")
  {
    JoinFour(NameLine(p), PriceLine(p), DescriptionLine(p), CategoriesLine(p), "\n");
    NameLine(p) + "\n" + PriceLine(p) + "\n" + DescriptionLine(p) + "\n" + CategoriesLine(p)
  }

  /**
   * When no field holds a line break, a block is exactly its four lines, in
   * the order name, price, description, categories.
   */
  lemma SerializedLines(p: Product)
    requires '\n' !in NameOf(p) && '\n' !in PriceOf(p)
    requires '\n' !in DescriptionOf(p) && '\n' !in CategoriesText(p)
    ensures Split(Serialize(p), '\n') == [NameLine(p), PriceLine(p), DescriptionLine(p), CategoriesLine(p)]
  {
    assert '\n' !in ProductTag + " " && '\n' !in PriceTag + " ";
    assert '\n' !in DescriptionTag + " " && '\n' !in CategoriesTag + " ";
    SplitFour(NameLine(p), PriceLine(p), DescriptionLine(p), CategoriesLine(p), '\n');
  }

  /** The sentinels that stand in for missing fields. */
  lemma Sentinels(p: Product)
    ensures p.name.None? ==> NameLine(p) == "Producto: N/A"
    ensures p.price.None? ==> PriceLine(p) == "Precio: N/A"
    ensures p.description.None? ==> DescriptionLine(p) == "Descripción: "
    ensures CategoryNames(p) == [] ==> CategoriesLine(p) == "Categorías: Sin categorías"
    ensures CategoryNames(p) != [] ==> CategoriesLine(p) == "Categorías: " + Join(CategoryNames(p), ", ")
  {
  }

  /**
   * `fetch_products`: on a successful answer, the blocks of its products in
   * order; on any other status, no documents at all.
   */
  method FetchProducts(status: int, products: seq<Product>) returns (descriptions: seq<string>)
    ensures status != StatusOk ==> descriptions == []
    ensures status == StatusOk ==> |descriptions| == |products|
    ensures status == StatusOk ==>
              forall i :: 0 <= i < |products| ==> descriptions[i] == Serialize(products[i])
  {
    descriptions := [];
    if status == StatusOk {
      for i := 0 to |products|
        invariant |descriptions| == i
        invariant forall j :: 0 <= j < i ==> descriptions[j] == Serialize(products[j])
      {
        descriptions := descriptions + [Serialize(products[i])];
      }
    }
  }
}
