/** The investment catalog of backend/src/domain/entities/InvestmentCatalog.ts:
    categories holding subcategories holding items, and the lookup of an
    item's display name by its code. The catalog's entries are data and are
    a parameter here. */
module InvestmentCatalog {
  import opened Common

  datatype Item = Item(code: string, name: string, description: string)

  datatype Subcategory = Subcategory(id: string, name: string, items: seq<Item>)

  datatype Category = Category(id: string, name: string, description: string, subcategories: seq<Subcategory>)

  /** `items.find(item => item.code === code)`: the first item with the code. */
  function FirstWithCode(items: seq<Item>, code: string): (r: Option<Item>)
    ensures r.Some? ==> r.value in items && r.value.code == code
    ensures r.None? <==> forall i :: 0 <= i < |items| ==> items[i].code != code
    decreases |items|
  {
    if items == [] then None
    else if items[0].code == code then Some(items[0])
    else FirstWithCode(items[1..], code)
  }

  /** What `find` answers is the item at the first position carrying the
      code. */
  lemma {:induction false} FirstWithCodeIsFirst(items: seq<Item>, code: string)
    requires FirstWithCode(items, code).Some?
    ensures exists k :: 0 <= k < |items| && items[k] == FirstWithCode(items, code).value &&
                        forall j :: 0 <= j < k ==> items[j].code != code
    decreases |items|
  {
    if items[0].code != code {
      FirstWithCodeIsFirst(items[1..], code);
      var k :| 0 <= k < |items[1..]| && items[1..][k] == FirstWithCode(items, code).value &&
               forall j :: 0 <= j < k ==> items[1..][j].code != code;
      assert items[k + 1] == FirstWithCode(items, code).value;
    } else {
      assert items[0] == FirstWithCode(items, code).value;
    }
  }

  /** The inner loop: subcategory after subcategory. */
  function FindInSubcategories(subs: seq<Subcategory>, code: string): Option<Item>
    decreases |subs|
  {
    if subs == [] then None
    else
      var found := FirstWithCode(subs[0].items, code);
      if found.Some? then found else FindInSubcategories(subs[1..], code)
  }

  /** The outer loop: category after category. */
  function FindInCategories(cats: seq<Category>, code: string): Option<Item>
    decreases |cats|
  {
    if cats == [] then None
    else
      var found := FindInSubcategories(cats[0].subcategories, code);
      if found.Some? then found else FindInCategories(cats[1..], code)
  }

  /** `getInvestmentNameByCode(code)`: null for a missing or empty code,
      otherwise the name of the first item carrying the code, if any. */
  function NameByCode(catalog: seq<Category>, code: Option<string>): Option<string>
  {
    if code.None? || code.value == "" then None
    else
      var item := FindInCategories(catalog, code.value);
      if item.Some? then Some(item.value.name) else None
  }

  // -----------------------------------------------------------------------
  // A flat reference: every item, in catalog order
  // -----------------------------------------------------------------------

  function ItemsOfSubcategories(subs: seq<Subcategory>): seq<Item>
    decreases |subs|
  {
    if subs == [] then [] else subs[0].items + ItemsOfSubcategories(subs[1..])
  }

  /** All the items of the catalog, category by category, subcategory by
      subcategory. */
  function AllItems(cats: seq<Category>): seq<Item>
    decreases |cats|
  {
    if cats == [] then [] else ItemsOfSubcategories(cats[0].subcategories) + AllItems(cats[1..])
  }

  lemma {:induction false} FirstWithCodeAppend(a: seq<Item>, b: seq<Item>, code: string)
    ensures FirstWithCode(a + b, code) ==
            if FirstWithCode(a, code).Some? then FirstWithCode(a, code) else FirstWithCode(b, code)
    decreases |a|
  {
    if a == [] {
      assert a + b == b;
    } else {
      assert (a + b)[1..] == a[1..] + b;
      FirstWithCodeAppend(a[1..], b, code);
    }
  }

  lemma {:induction false} SubcategoriesSearchFlat(subs: seq<Subcategory>, code: string)
    ensures FindInSubcategories(subs, code) == FirstWithCode(ItemsOfSubcategories(subs), code)
    decreases |subs|
  {
    if subs != [] {
      SubcategoriesSearchFlat(subs[1..], code);
      FirstWithCodeAppend(subs[0].items, ItemsOfSubcategories(subs[1..]), code);
    }
  }

  /** The nested search is a search of the flat list in catalog order: the
      first match in category, then subcategory, then item order wins. */
  lemma {:induction false} NestedSearchIsFlatSearch(cats: seq<Category>, code: string)
    ensures FindInCategories(cats, code) == FirstWithCode(AllItems(cats), code)
    decreases |cats|
  {
    if cats != [] {
      SubcategoriesSearchFlat(cats[0].subcategories, code);
      NestedSearchIsFlatSearch(cats[1..], code);
      FirstWithCodeAppend(ItemsOfSubcategories(cats[0].subcategories), AllItems(cats[1..]), code);
    }
  }

  /** A name is found exactly when some item of the catalog carries the
      (non-empty) code, and then it is the name of such an item, the first
      one in catalog order. */
  lemma NameByCodeSpec(catalog: seq<Category>, code: Option<string>)
    ensures code.None? || code.value == "" ==> NameByCode(catalog, code).None?
    ensures code.Some? && code.value != "" ==>
              var items := AllItems(catalog);
              (NameByCode(catalog, code).Some? <==> exists i :: 0 <= i < |items| && items[i].code == code.value) &&
              (NameByCode(catalog, code).Some? ==>
                 exists k :: 0 <= k < |items| && items[k].code == code.value &&
                             items[k].name == NameByCode(catalog, code).value &&
                             forall j :: 0 <= j < k ==> items[j].code != code.value)
  {
    if code.Some? && code.value != "" {
      NestedSearchIsFlatSearch(catalog, code.value);
      if NameByCode(catalog, code).Some? {
        FirstWithCodeIsFirst(AllItems(catalog), code.value);
      }
    }
  }
}
