/** The investment selector of
    app-zone/src/components/investment-selector/investment-selector.tsx: the
    search filter over the catalog's categories, the set of expanded
    categories, and the selection of an item. The component's state hooks
    are the fields of a class; `onSelect` is the value `HandleSelect`
    returns. */
module InvestmentSelector {
  import opened Common
  import opened InvestmentCatalog

  /** Whether an item stays in the list for the lower-cased search term. */
  predicate Matches(search: string, categoryName: string, subcategoryName: string, item: Item)
  {
    Contains(Lower(item.name), search) || Contains(Lower(item.description), search) ||
    Contains(Lower(categoryName), search) || Contains(Lower(subcategoryName), search)
  }

  /** A subcategory reduced to its matching items. */
  function NarrowSubcategory(search: string, categoryName: string, sub: Subcategory): Subcategory
  {
    sub.(items := Filter(sub.items, (item: Item) => Matches(search, categoryName, sub.name, item)))
  }

  predicate HasItems(sub: Subcategory) { |sub.items| > 0 }

  predicate HasSubcategories(c: Category) { |c.subcategories| > 0 }

  /** A category reduced to its subcategories that still hold items. */
  function NarrowCategory(search: string, c: Category): Category
  {
    c.(subcategories := Filter(Map(c.subcategories, (sub: Subcategory) => NarrowSubcategory(search, c.name, sub)), HasItems))
  }

  /** `filteredCategories`. */
  function FilteredCategories(categories: seq<Category>, searchTerm: string): seq<Category>
  {
    if searchTerm == "" then categories
    else Filter(Map(categories, (c: Category) => NarrowCategory(Lower(searchTerm), c)), HasSubcategories)
  }

  /** `toggleCategory`: flip one id's membership. */
  function Toggled(expanded: set<string>, id: string): set<string>
  {
    if id in expanded then expanded - {id} else expanded + {id}
  }

  /** What the auto-expand effect sets the expanded ids to. */
  function AutoExpanded(searchTerm: string, filtered: seq<Category>): set<string>
  {
    if searchTerm != "" then set c | c in filtered :: c.id else {}
  }

  class Selector {
    const categories: seq<Category>
    var isOpen: bool
    var searchTerm: string
    var expanded: set<string>

    constructor (categories: seq<Category>)
      ensures this.categories == categories
      ensures !isOpen && searchTerm == "" && expanded == {}
    {
      this.categories := categories;
      isOpen := false;
      searchTerm := "";
      expanded := {};
    }

    /** `setSearchTerm(term)`, followed by the auto-expand effect. The effect
        depends on the term and the filtered list only, so setting the term
        it already has runs nothing and leaves the expanded ids alone. */
    method SetSearchTerm(term: string)
      modifies this`searchTerm, this`expanded
      ensures searchTerm == term
      ensures expanded == if term == old(searchTerm) then old(expanded)
                          else AutoExpanded(term, FilteredCategories(categories, term))
    {
      if term != searchTerm {
        searchTerm := term;
        expanded := AutoExpanded(searchTerm, FilteredCategories(categories, searchTerm));
      }
    }

    /** The trigger button's `!disabled && setIsOpen(!isOpen)`: a disabled
        selector ignores the click, otherwise the list opens or closes. */
    method ToggleOpen(disabled: bool)
      modifies this`isOpen
      ensures isOpen == if disabled then old(isOpen) else !old(isOpen)
    {
      if !disabled {
        isOpen := !isOpen;
      }
    }

    /** A `mousedown` seen by the click-outside listener, which is attached
        only while the list is open. The list closes when the click lands
        outside the trigger's container and outside the dropdown, and only
        once the dropdown has been mounted in its portal (its ref is null
        before). */
    method MouseDown(insideContainer: bool, dropdownMounted: bool, insideDropdown: bool)
      modifies this`isOpen
      ensures isOpen == (old(isOpen) && !(!insideContainer && dropdownMounted && !insideDropdown))
    {
      if isOpen && !insideContainer && dropdownMounted && !insideDropdown {
        isOpen := false;
      }
    }

    /** `toggleCategory(categoryId)`. */
    method ToggleCategory(categoryId: string)
      modifies this`expanded
      ensures expanded == Toggled(old(expanded), categoryId)
    {
      var next := expanded;
      if categoryId in next {
        next := next - {categoryId};
      } else {
        next := next + {categoryId};
      }
      expanded := next;
    }

    /** `handleSelect(item, categoryId)`: the selection is handed on, the
        dropdown closes and the search is cleared. Clearing a search
        collapses every category; when the search was already empty the
        expanded categories stay as the user left them. */
    method HandleSelect(item: Item, categoryId: string) returns (selected: (Item, string))
      modifies this`isOpen, this`searchTerm, this`expanded
      ensures selected == (item, categoryId)
      ensures !isOpen && searchTerm == ""
      ensures expanded == if old(searchTerm) == "" then old(expanded) else {}
    {
      selected := (item, categoryId);
      isOpen := false;
      SetSearchTerm("");
    }
  }

  // -----------------------------------------------------------------------
  // Properties
  // -----------------------------------------------------------------------

  /** Toggling flips exactly the given id, so toggling twice changes
      nothing. */
  lemma ToggleFlipsOne(expanded: set<string>, id: string, other: string)
    requires other != id
    ensures id in Toggled(expanded, id) <==> id !in expanded
    ensures other in Toggled(expanded, id) <==> other in expanded
    ensures Toggled(Toggled(expanded, id), id) == expanded
  {
  }

  /** An empty search shows the catalog as it is and collapses everything;
      a search expands exactly the categories it shows. */
  lemma AutoExpandRule(categories: seq<Category>, term: string, id: string)
    ensures term == "" ==> FilteredCategories(categories, term) == categories
    ensures term == "" ==> AutoExpanded(term, FilteredCategories(categories, term)) == {}
    ensures term != "" ==>
              (id in AutoExpanded(term, FilteredCategories(categories, term)) <==>
               exists c :: c in FilteredCategories(categories, term) && c.id == id)
  {
  }

  /** A search result holds no empty category and no empty subcategory. */
  lemma NoEmptyGroups(categories: seq<Category>, term: string)
    requires term != ""
    ensures forall c :: c in FilteredCategories(categories, term) ==>
              c.subcategories != [] && forall sub :: sub in c.subcategories ==> sub.items != []
  {
    var narrowed := Map(categories, (c: Category) => NarrowCategory(Lower(term), c));
    forall c | c in FilteredCategories(categories, term)
      ensures c.subcategories != [] && forall sub :: sub in c.subcategories ==> sub.items != []
    {
      var k :| 0 <= k < |narrowed| && narrowed[k] == c;
      assert c == NarrowCategory(Lower(term), categories[k]);
    }
  }

  /** Every item a search shows matches the lower-cased term by its own
      name or description, or by its category's or subcategory's name;
      each shown category and subcategory is a narrowed original. */
  lemma ShownItemsMatch(categories: seq<Category>, term: string, c: Category, sub: Subcategory, item: Item)
    requires term != ""
    requires c in FilteredCategories(categories, term)
    requires sub in c.subcategories && item in sub.items
    ensures exists k :: 0 <= k < |categories| && categories[k].id == c.id && categories[k].name == c.name &&
                        exists j :: 0 <= j < |categories[k].subcategories| &&
                                    categories[k].subcategories[j].id == sub.id &&
                                    item in categories[k].subcategories[j].items
    ensures Matches(Lower(term), c.name, sub.name, item)
  {
    var search := Lower(term);
    var narrowed := Map(categories, (c: Category) => NarrowCategory(search, c));
    var k :| 0 <= k < |narrowed| && narrowed[k] == c;
    var orig := categories[k];
    var subs := Map(orig.subcategories, (s: Subcategory) => NarrowSubcategory(search, orig.name, s));
    assert sub in subs;
    var j :| 0 <= j < |subs| && subs[j] == sub;
    var origSub := orig.subcategories[j];
    assert sub == NarrowSubcategory(search, orig.name, origSub);
  }

  /** Every item that matches the lower-cased term is shown, in its own
      category and subcategory. */
  lemma MatchingItemsShown(categories: seq<Category>, term: string, k: nat, j: nat, item: Item)
    requires term != ""
    requires k < |categories| && j < |categories[k].subcategories|
    requires item in categories[k].subcategories[j].items
    requires Matches(Lower(term), categories[k].name, categories[k].subcategories[j].name, item)
    ensures exists c :: c in FilteredCategories(categories, term) && c.id == categories[k].id &&
                        exists sub :: sub in c.subcategories && sub.id == categories[k].subcategories[j].id &&
                                      item in sub.items
  {
    var search := Lower(term);
    var orig := categories[k];
    var origSub := orig.subcategories[j];
    var sub := NarrowSubcategory(search, orig.name, origSub);
    assert item in sub.items;
    var subs := Map(orig.subcategories, (s: Subcategory) => NarrowSubcategory(search, orig.name, s));
    assert subs[j] == sub;
    assert HasItems(sub);
    var c := NarrowCategory(search, orig);
    assert sub in c.subcategories;
    var narrowed := Map(categories, (c: Category) => NarrowCategory(search, c));
    assert narrowed[k] == c;
    assert HasSubcategories(c);
    assert c in FilteredCategories(categories, term);
  }
}
