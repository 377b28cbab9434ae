/** The product list screen: products grouped by type, a search box over
    label and reference, and deletion through the confirmation modal. */
module ProductsList {
  import opened Js
  import opened Grouping
  import LV = ListViews

  /** A product as the list reads it. `typeLibelle` stands for `prod.type?.libelle`
      (Undefined when the product has no type). */
  datatype ListedProduct = ListedProduct(id: int, libelle: JsValue, reference: JsValue, typeLibelle: JsValue)

  /** The group a product goes to: `prod.type?.libelle || "Autre"`, as a property name. */
  function TypeKey(p: ListedProduct): (k: string)
    ensures !Truthy(p.typeLibelle) ==> k == "Autre"
    ensures Truthy(p.typeLibelle) ==> k == ToText(p.typeLibelle)
  {
    ToText(Or(p.typeLibelle, Str("Autre")))
  }

  /** The list the grouping effect walks: the sorted list once it has rows, the fetched list before. */
  function GroupingSource(sortedProducts: seq<ListedProduct>, products: seq<ListedProduct>): (r: seq<ListedProduct>)
    ensures |sortedProducts| > 0 ==> r == sortedProducts
    ensures |sortedProducts| == 0 ==> r == products
  {
    if |sortedProducts| > 0 then sortedProducts else products
  }

  /** The group-by-type effect pushes the product itself. */
  function Itself(p: ListedProduct): ListedProduct { p }

  /** The group-by-type effect. */
  method GroupByType(sortedProducts: seq<ListedProduct>, products: seq<ListedProduct>)
    returns (grouped: seq<Group<string, ListedProduct>>)
    ensures IsGrouping(grouped, GroupingSource(sortedProducts, products), TypeKey, Itself)
  {
    grouped := GroupInto(GroupingSource(sortedProducts, products), TypeKey, Itself);
  }

  /** Each product of the walked list is in exactly one group, the one named by its type. */
  lemma EachProductInOneGroup(sortedProducts: seq<ListedProduct>, products: seq<ListedProduct>, p: ListedProduct)
    requires p in GroupingSource(sortedProducts, products)
    ensures var gs := Grouped(GroupingSource(sortedProducts, products), TypeKey, Itself);
      var g := IndexOfKey(gs, TypeKey(p));
      0 <= g && p in gs[g].items
      && forall h :: 0 <= h < |gs| && h != g ==> p !in gs[h].items
  {
    var src := GroupingSource(sortedProducts, products);
    var gs := Grouped(src, TypeKey, Itself);
    GroupedIsGrouping(src, TypeKey, Itself);
    var i :| 0 <= i < |src| && src[i] == p;
    MatchingHasItem(src, TypeKey, Itself, i);
    var g := IndexOfKey(gs, TypeKey(p));
    forall h | 0 <= h < |gs| && h != g
      ensures p !in gs[h].items
    {
      MatchingMembers(src, TypeKey, Itself, gs[h].key);
    }
  }

  /** A text field matches when it is a string containing the query
      (`field?.toLowerCase().includes(q.toLowerCase())`). */
  predicate FieldMatches(v: JsValue, query: string)
  {
    v.Str? && Matches(v.s, query)
  }

  /** `filteredProducts(prods)`. */
  function FilteredProducts(prods: seq<ListedProduct>, query: string): (r: seq<ListedProduct>)
    ensures forall p :: p in r <==> p in prods && (FieldMatches(p.libelle, query) || FieldMatches(p.reference, query))
    ensures IsSubsequence(r, prods)
  {
    Filter(prods, (p: ListedProduct) => FieldMatches(p.libelle, query) || FieldMatches(p.reference, query))
  }

  /** An empty search keeps every product that has a string label or reference, and only those. */
  lemma EmptySearch(prods: seq<ListedProduct>)
    ensures forall p :: p in FilteredProducts(prods, "") <==> p in prods && (p.libelle.Str? || p.reference.Str?)
  {
    forall p | p in prods && (p.libelle.Str? || p.reference.Str?)
      ensures FieldMatches(p.libelle, "") || FieldMatches(p.reference, "")
    {
      if p.libelle.Str? {
        EmptyQueryMatches(p.libelle.s);
      } else {
        EmptyQueryMatches(p.reference.s);
      }
    }
  }

  /** `handleDelete()` on the product list. */
  function HandleDelete(v: LV.ListView<ListedProduct>, resp: LV.DeleteResponse): (r: LV.ListView<ListedProduct>)
    ensures v.selected == None ==> r == v
    ensures v.selected != None ==> !r.showModal && r.selected == None
    ensures v.selected != None && LV.Deleted(resp) ==>
              forall p :: p in r.items <==> p in v.items && p.id != v.selected.value.id
    ensures !LV.Deleted(resp) ==> r.items == v.items
  {
    LV.HandleDelete(v, (p: ListedProduct) => p.id, resp)
  }
}
