/** The row of category buttons and its keyboard cursor. */
module CategoryTabsView {
  import opened Emoji

  /** One category button; only whether it is the active one is modelled. */
  class CategoryTab {
    const category: Category
    var active: bool

    constructor(category: Category)
      ensures this.category == category && !active
    {
      this.category := category;
      active := false;
    }

    method SetActive(isActive: bool)
      modifies this
      ensures active == isActive
    {
      active := isActive;
    }
  }

  class CategoryTabs {
    const categories: seq<Category>
    var tabViews: seq<CategoryTab>
    var activeCategoryIndex: int

    /** One distinct tab per category, and the cursor on a tab whenever
        there is one. */
    ghost predicate Valid()
      reads this
    {
      && |tabViews| == |categories|
      && (forall i, j :: 0 <= i < j < |tabViews| ==> tabViews[i] != tabViews[j])
      && (forall i :: 0 <= i < |tabViews| ==> tabViews[i].category == categories[i])
      && (0 < |categories| ==> 0 <= activeCategoryIndex < |categories|)
    }

    /** The constructor together with `renderSync`, which makes one tab per
        category; the cursor starts on the first tab. */
    constructor(categories: seq<Category>)
      ensures Valid()
      ensures this.categories == categories && activeCategoryIndex == 0
      ensures forall i :: 0 <= i < |tabViews| ==> fresh(tabViews[i]) && !tabViews[i].active
    {
      var tabs: seq<CategoryTab> := [];
      var i := 0;
      while i < |categories|
        invariant 0 <= i <= |categories| && |tabs| == i
        invariant forall k :: 0 <= k < i ==> fresh(tabs[k]) && !tabs[k].active && tabs[k].category == categories[k]
        invariant forall k, l :: 0 <= k < l < i ==> tabs[k] != tabs[l]
      {
        var tab := new CategoryTab(categories[i]);
        tabs := tabs + [tab];
        i := i + 1;
      }
      this.categories := categories;
      tabViews := tabs;
      activeCategoryIndex := 0;
    }

    /** `currentCategory`: `None` stands for the `undefined` an index outside
        the list reads. */
    function CurrentCategory(): (c: Option<Category>)
      reads this
      ensures c.Some? <==> 0 <= activeCategoryIndex < |categories|
      ensures c.Some? ==> c.value == categories[activeCategoryIndex]
    {
      if 0 <= activeCategoryIndex < |categories| then Some(categories[activeCategoryIndex]) else None
    }

    /** `getTargetCategory`: one step past either end wraps to the other end. */
    function GetTargetCategory(index: int): (r: int)
      reads this
      ensures index < 0 ==> r == |categories| - 1
      ensures |categories| <= index ==> r == 0
      ensures 0 <= index < |categories| ==> r == index
      ensures 0 < |categories| ==> 0 <= r < |categories|
    {
      if index < 0 then |categories| - 1
      else if index >= |categories| then 0
      else index
    }

    /** `setActiveTab`: the old tab is deactivated, then tab `index` is
        activated and becomes current; no other tab changes. */
    method SetActiveTab(index: int)
      requires Valid() && 0 <= index < |tabViews|
      modifies this`activeCategoryIndex, tabViews
      ensures Valid()
      ensures activeCategoryIndex == index
      ensures forall i :: 0 <= i < |tabViews| ==>
        tabViews[i].active == (if i == index then true
                               else if i == old(activeCategoryIndex) then false
                               else old(tabViews[i].active))
    {
      var oldTab := tabViews[activeCategoryIndex];
      var newTab := tabViews[index];
      oldTab.SetActive(false);
      newTab.SetActive(true);
      activeCategoryIndex := index;
    }

    /** The handler `stepSelectedTab(step)` returns. With no categories the
        current tab is `undefined` and the handler throws before changing
        anything. */
    method StepSelectedTab(step: int) returns (threw: bool)
      requires Valid()
      modifies this`activeCategoryIndex, tabViews
      ensures Valid()
      ensures threw <==> |categories| == 0
      ensures !threw ==> activeCategoryIndex == GetTargetCategory(old(activeCategoryIndex) + step)
      ensures !threw ==> forall i :: 0 <= i < |tabViews| ==>
        tabViews[i].active == (if i == activeCategoryIndex then true
                               else if i == old(activeCategoryIndex) then false
                               else old(tabViews[i].active))
      ensures threw ==> activeCategoryIndex == old(activeCategoryIndex)
    {
      if |categories| == 0 {
        threw := true;
        return;
      }
      threw := false;
      var newIndex := activeCategoryIndex + step;
      SetActiveTab(GetTargetCategory(newIndex));
    }

    /** The `ArrowLeft` binding: one tab left, from the first to the last. */
    method ArrowLeft() returns (threw: bool)
      requires Valid()
      modifies this`activeCategoryIndex, tabViews
      ensures Valid()
      ensures threw <==> |categories| == 0
      ensures !threw ==> activeCategoryIndex ==
                         (if old(activeCategoryIndex) == 0 then |categories| - 1 else old(activeCategoryIndex) - 1)
      ensures !threw ==> forall i :: 0 <= i < |tabViews| ==>
        tabViews[i].active == (if i == activeCategoryIndex then true
                               else if i == old(activeCategoryIndex) then false
                               else old(tabViews[i].active))
    {
      threw := StepSelectedTab(-1);
    }

    /** The `ArrowRight` binding: one tab right, from the last to the first. */
    method ArrowRight() returns (threw: bool)
      requires Valid()
      modifies this`activeCategoryIndex, tabViews
      ensures Valid()
      ensures threw <==> |categories| == 0
      ensures !threw ==> activeCategoryIndex ==
                         (if old(activeCategoryIndex) == |categories| - 1 then 0 else old(activeCategoryIndex) + 1)
      ensures !threw ==> forall i :: 0 <= i < |tabViews| ==>
        tabViews[i].active == (if i == activeCategoryIndex then true
                               else if i == old(activeCategoryIndex) then false
                               else old(tabViews[i].active))
    {
      threw := StepSelectedTab(1);
    }
  }

  /** A freshly built row shows its first category. */
  method NewTabsShowFirstCategory(categories: seq<Category>) returns (tabs: CategoryTabs)
    requires 0 < |categories|
    ensures tabs.Valid() && tabs.CurrentCategory() == Some(categories[0])
  {
    tabs := new CategoryTabs(categories);
  }
}
