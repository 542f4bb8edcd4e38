/**
 * The application shell (src/App.jsx): the category and idea store held by the
 * provider, its start-up rule, the newest-first idea query, navigation and the page
 * dispatch. Storage, generated ids and clock readings are parameters.
 */
module App {
  import opened Wrappers
  import opened Seqs

  datatype Category = Category(id: string, name: string, color: string, createdAt: int)

  datatype Idea = Idea(
    id: string,
    categoryId: string,
    content: string,
    inputMethod: string,
    createdAt: int,
    updatedAt: int)

  /** The fields an `updateCategory` call spreads over a category; `None` leaves a field as it was. */
  datatype CategoryPatch = CategoryPatch(
    id: Option<string>,
    name: Option<string>,
    color: Option<string>,
    createdAt: Option<int>)

  const DEFAULT_CATEGORY_COLOR: string := "#A5B4FC"
  const DEFAULT_INPUT_METHOD: string := "text"

  /** The names and colours of the eight categories installed on a first start. */
  const DEFAULT_NAMES: seq<string> := [
    "BrainStorm 1", "BrainStorm 2", "BrainStorm 3", "BrainStorm 4",
    "BrainStorm 5", "BrainStorm 6", "BrainStorm 7", "BrainStorm 8"]
  const DEFAULT_COLORS: seq<string> := [
    "#A5B4FC", "#A5B4FC", "#93C5FD", "#C4B5FD", "#FBBF24", "#FB923C", "#34D399", "#60A5FA"]

  // ------------------------------------------------------------ pages

  /** The three pages the shell can show. */
  datatype Page = HomePage | SelectionPage | WhiteboardPage

  const HOME: string := "home"

  /**
   * `renderPage`: `'select'` and `'whiteboard'` show their pages, and every other
   * value of the current page, `'home'` included, shows the home page.
   */
  function RenderPage(page: string): (r: Page)
    ensures r == SelectionPage <==> page == "select"
    ensures r == WhiteboardPage <==> page == "whiteboard"
    ensures r == HomePage <==> page != "select" && page != "whiteboard"
  {
    if page == "select" then SelectionPage
    else if page == "whiteboard" then WhiteboardPage
    else HomePage
  }

  // ------------------------------------------------------------ start-up

  /**
   * The eight default categories, the k-th named "BrainStorm k" with the k-th palette
   * colour, each with its own generated id and clock reading.
   */
  function DefaultCategories(ids: seq<string>, stamps: seq<int>): (r: seq<Category>)
    requires |ids| == 8 && |stamps| == 8
    ensures |r| == 8
    ensures forall k :: 0 <= k < 8 ==> r[k].id == ids[k] && r[k].createdAt == stamps[k]
    ensures forall k :: 0 <= k < 8 ==> r[k].name == DEFAULT_NAMES[k] && r[k].color == DEFAULT_COLORS[k]
  {
    seq(8, k requires 0 <= k < 8 => Category(ids[k], DEFAULT_NAMES[k], DEFAULT_COLORS[k], stamps[k]))
  }

  /**
   * The categories after the mount effect: a saved, non-empty list is kept as it is;
   * a missing or empty one is replaced by the eight defaults. Either way the shell
   * starts with at least one category.
   */
  function InitialCategories(saved: Option<seq<Category>>, ids: seq<string>, stamps: seq<int>): (r: seq<Category>)
    requires |ids| == 8 && |stamps| == 8
    ensures |r| > 0
    ensures saved.Some? && |saved.value| > 0 ==> r == saved.value
    ensures saved.None? || |saved.value| == 0 ==> r == DefaultCategories(ids, stamps)
  {
    if saved.Some? && |saved.value| > 0 then saved.value else DefaultCategories(ids, stamps)
  }

  // ------------------------------------------------------------ categories

  /** `{ ...cat, ...updates }`: every field the patch carries overrides the category's. */
  function Merge(cat: Category, patch: CategoryPatch): (r: Category)
    ensures patch == CategoryPatch(None, None, None, None) ==> r == cat
    ensures patch.name.Some? ==> r.name == patch.name.value
    ensures patch.name.None? ==> r.name == cat.name
    ensures patch.color.Some? ==> r.color == patch.color.value
    ensures patch.color.None? ==> r.color == cat.color
    ensures patch.id.Some? ==> r.id == patch.id.value
    ensures patch.id.None? ==> r.id == cat.id
    ensures patch.createdAt.Some? ==> r.createdAt == patch.createdAt.value
    ensures patch.createdAt.None? ==> r.createdAt == cat.createdAt
  {
    Category(
      patch.id.GetOr(cat.id),
      patch.name.GetOr(cat.name),
      patch.color.GetOr(cat.color),
      patch.createdAt.GetOr(cat.createdAt))
  }

  /** Applying the same patch twice is applying it once. */
  lemma MergeIdempotent(cat: Category, patch: CategoryPatch)
    ensures Merge(Merge(cat, patch), patch) == Merge(cat, patch)
  {
  }

  /** `categories.map(...)`: the categories with the given id are merged with the patch, the others kept. */
  function UpdateCategories(cats: seq<Category>, id: string, patch: CategoryPatch): (r: seq<Category>)
    ensures |r| == |cats|
    ensures forall i :: 0 <= i < |cats| && cats[i].id == id ==> r[i] == Merge(cats[i], patch)
    ensures forall i :: 0 <= i < |cats| && cats[i].id != id ==> r[i] == cats[i]
  {
    seq(|cats|, i requires 0 <= i < |cats| => if cats[i].id == id then Merge(cats[i], patch) else cats[i])
  }

  /** An update naming no stored category changes nothing. */
  lemma UpdateUnknownIsNoOp(cats: seq<Category>, id: string, patch: CategoryPatch)
    requires forall i :: 0 <= i < |cats| ==> cats[i].id != id
    ensures UpdateCategories(cats, id, patch) == cats
  {
  }

  // ------------------------------------------------------------ the idea query

  /** Ordered by creation time, newest first. */
  ghost predicate NewestFirst(s: seq<Idea>)
  {
    forall i, j :: 0 <= i < j < |s| ==> s[i].createdAt >= s[j].createdAt
  }

  /**
   * Inserts `x` into a newest-first list ahead of the first idea that is not newer
   * than it, so the list stays newest first and holds `x` once more.
   */
  function InsertNewestFirst(x: Idea, t: seq<Idea>): (r: seq<Idea>)
    requires NewestFirst(t)
    ensures NewestFirst(r)
    ensures multiset(r) == multiset(t) + multiset{x}
    ensures r[0] == x || (|t| > 0 && r[0] == t[0])
  {
    if t == [] || t[0].createdAt <= x.createdAt then
      PrependNewestFirst(x, t);
      [x] + t
    else
      var rest := InsertNewestFirst(x, t[1..]);
      assert t == [t[0]] + t[1..];
      PrependNewestFirst(t[0], rest);
      [t[0]] + rest
  }

  /** A newest-first list stays newest first behind a head at least as new as its own head. */
  lemma PrependNewestFirst(h: Idea, s: seq<Idea>)
    requires NewestFirst(s)
    requires s != [] ==> h.createdAt >= s[0].createdAt
    ensures NewestFirst([h] + s)
  {
    forall i, j | 0 <= i < j < |[h] + s|
      ensures ([h] + s)[i].createdAt >= ([h] + s)[j].createdAt
    {
      if i == 0 && j > 1 {
        assert s[0].createdAt >= s[j - 1].createdAt;
      }
    }
  }

  /** `sort((a, b) => b.createdAt - a.createdAt)`: a newest-first arrangement of the same ideas. */
  function SortNewestFirst(s: seq<Idea>): (r: seq<Idea>)
    ensures NewestFirst(r)
    ensures multiset(r) == multiset(s)
  {
    if s == [] then []
    else
      assert s == [s[0]] + s[1..];
      InsertNewestFirst(s[0], SortNewestFirst(s[1..]))
  }

  /** The ideas created at one instant. */
  function CreatedAt(stamp: int): Idea -> bool
  {
    (idea: Idea) => idea.createdAt == stamp
  }

  /**
   * Insertion keeps ideas of equal creation time in their order: among the ideas
   * created at any one instant, `x` comes first, ahead of those already in `t`.
   */
  lemma {:induction false} InsertNewestFirstStable(x: Idea, t: seq<Idea>, stamp: int)
    requires NewestFirst(t)
    ensures Filter(InsertNewestFirst(x, t), CreatedAt(stamp)) ==
            (if x.createdAt == stamp then [x] else []) + Filter(t, CreatedAt(stamp))
  {
    var same := CreatedAt(stamp);
    if t == [] || t[0].createdAt <= x.createdAt {
      assert InsertNewestFirst(x, t) == [x] + t;
      FilterCons(x, t, same);
    } else {
      NewestFirstTail(t);
      var rest := InsertNewestFirst(x, t[1..]);
      assert InsertNewestFirst(x, t) == [t[0]] + rest;
      InsertNewestFirstStable(x, t[1..], stamp);
      SkipHeadStable(x, t, rest, stamp);
    }
  }

  /**
   * The step of the stability proof where `x` goes behind a strictly newer head: that
   * head is never among the ideas created at the same instant as `x`.
   */
  lemma SkipHeadStable(x: Idea, t: seq<Idea>, rest: seq<Idea>, stamp: int)
    requires t != [] && t[0].createdAt > x.createdAt
    requires Filter(rest, CreatedAt(stamp)) ==
             (if x.createdAt == stamp then [x] else []) + Filter(t[1..], CreatedAt(stamp))
    ensures Filter([t[0]] + rest, CreatedAt(stamp)) ==
            (if x.createdAt == stamp then [x] else []) + Filter(t, CreatedAt(stamp))
  {
    assert t == [t[0]] + t[1..];
    FilterPastHead(t[0], t[1..], rest, if x.createdAt == stamp then [x] else [], CreatedAt(stamp));
  }

  /** Dropping the newest idea keeps a list newest first. */
  lemma NewestFirstTail(t: seq<Idea>)
    requires NewestFirst(t) && t != []
    ensures NewestFirst(t[1..])
  {
    assert forall i :: 0 <= i < |t[1..]| ==> t[1..][i] == t[i + 1];
  }

  /**
   * The sort is stable, as JavaScript's `sort` is: ideas created at the same instant
   * keep the order they had in the input.
   */
  lemma {:induction false} SortNewestFirstStable(s: seq<Idea>, stamp: int)
    ensures Filter(SortNewestFirst(s), CreatedAt(stamp)) == Filter(s, CreatedAt(stamp))
  {
    if s != [] {
      SortNewestFirstStable(s[1..], stamp);
      InsertNewestFirstStable(s[0], SortNewestFirst(s[1..]), stamp);
    }
  }

  /** The filter of the idea query: the ideas filed under one category. */
  function InCategory(categoryId: string): Idea -> bool
  {
    (idea: Idea) => idea.categoryId == categoryId
  }

  /** `getIdeasForCategory`: the category's ideas, newest first. */
  function IdeasForCategory(ideas: seq<Idea>, categoryId: string): (r: seq<Idea>)
    ensures NewestFirst(r)
    ensures multiset(r) == multiset(Filter(ideas, InCategory(categoryId)))
  {
    SortNewestFirst(Filter(ideas, InCategory(categoryId)))
  }

  /** The query returns exactly the stored ideas filed under the category, and no other. */
  lemma IdeasForCategoryExact(ideas: seq<Idea>, categoryId: string, x: Idea)
    ensures x in IdeasForCategory(ideas, categoryId) <==> x in ideas && x.categoryId == categoryId
  {
    var f := Filter(ideas, InCategory(categoryId));
    var r := IdeasForCategory(ideas, categoryId);
    assert x in r <==> x in multiset(r);
    assert x in f <==> x in multiset(f);
    if x in f {
      var i :| 0 <= i < |f| && f[i] == x;
      assert InCategory(categoryId)(f[i]);
    }
    if x in ideas && x.categoryId == categoryId {
      var i :| 0 <= i < |ideas| && ideas[i] == x;
      assert InCategory(categoryId)(ideas[i]);
    }
  }

  // ------------------------------------------------------------ the provider

  class AppProvider {
    var currentPage: string
    var selectedCategory: Option<Category>
    var categories: seq<Category>
    var ideas: seq<Idea>

    /**
     * The provider after its mount effect: the home page, no selection, the start-up
     * category rule applied to what storage returned, and the saved ideas when storage
     * had any.
     */
    constructor(savedCategories: Option<seq<Category>>, savedIdeas: Option<seq<Idea>>,
                freshIds: seq<string>, stamps: seq<int>)
      requires |freshIds| == 8 && |stamps| == 8
      ensures currentPage == HOME && selectedCategory == None
      ensures categories == InitialCategories(savedCategories, freshIds, stamps)
      ensures |categories| > 0
      ensures ideas == savedIdeas.GetOr([])
    {
      currentPage := HOME;
      selectedCategory := None;
      categories := InitialCategories(savedCategories, freshIds, stamps);
      ideas := savedIdeas.GetOr([]);
    }

    /**
     * `addCategory`: appends one category with a fresh id and the current time, in the
     * given colour or the default one; the existing categories are untouched.
     */
    method AddCategory(name: string, color: Option<string>, id: string, now: int)
      modifies this`categories
      ensures |categories| == |old(categories)| + 1
      ensures categories[..|old(categories)|] == old(categories)
      ensures categories[|old(categories)|] == Category(id, name, color.GetOr(DEFAULT_CATEGORY_COLOR), now)
      ensures color.None? ==> categories[|old(categories)|].color == DEFAULT_CATEGORY_COLOR
    {
      categories := categories + [Category(id, name, color.GetOr(DEFAULT_CATEGORY_COLOR), now)];
    }

    /** `updateCategory`: merges the patch into the categories with that id and keeps the others. */
    method UpdateCategory(id: string, patch: CategoryPatch)
      modifies this`categories
      ensures categories == UpdateCategories(old(categories), id, patch)
      ensures |categories| == |old(categories)|
      ensures forall i :: 0 <= i < |categories| && old(categories)[i].id != id ==> categories[i] == old(categories)[i]
    {
      categories := UpdateCategories(categories, id, patch);
    }

    /**
     * `deleteCategory`: removes the category and, in cascade, every idea filed under
     * it; every other category and idea stays, in its original order.
     */
    method DeleteCategory(id: string)
      modifies this`categories, this`ideas
      ensures categories == Filter(old(categories), (c: Category) => c.id != id)
      ensures ideas == Filter(old(ideas), (idea: Idea) => idea.categoryId != id)
      ensures forall i :: 0 <= i < |categories| ==> categories[i].id != id
      ensures forall i :: 0 <= i < |ideas| ==> ideas[i].categoryId != id
      ensures forall i :: 0 <= i < |old(categories)| && old(categories)[i].id != id ==> old(categories)[i] in categories
      ensures forall i :: 0 <= i < |old(ideas)| && old(ideas)[i].categoryId != id ==> old(ideas)[i] in ideas
    {
      categories := Filter(categories, (c: Category) => c.id != id);
      ideas := Filter(ideas, (idea: Idea) => idea.categoryId != id);
    }

    /**
     * `addIdea`: appends one idea and returns it; its input method defaults to
     * `'text'`, and its creation and update times are two separate clock readings,
     * `created` and `updated`, which may differ.
     */
    method AddIdea(categoryId: string, content: string, inputMethod: Option<string>, id: string, created: int, updated: int)
      returns (idea: Idea)
      modifies this`ideas
      ensures idea == Idea(id, categoryId, content, inputMethod.GetOr(DEFAULT_INPUT_METHOD), created, updated)
      ensures inputMethod.None? ==> idea.inputMethod == DEFAULT_INPUT_METHOD
      ensures ideas == old(ideas) + [idea]
    {
      idea := Idea(id, categoryId, content, inputMethod.GetOr(DEFAULT_INPUT_METHOD), created, updated);
      ideas := ideas + [idea];
    }

    /** `deleteIdea`: removes every idea with that id and keeps all the others. */
    method DeleteIdea(id: string)
      modifies this`ideas
      ensures ideas == Filter(old(ideas), (idea: Idea) => idea.id != id)
      ensures forall i :: 0 <= i < |ideas| ==> ideas[i].id != id
      ensures forall i :: 0 <= i < |old(ideas)| && old(ideas)[i].id != id ==> old(ideas)[i] in ideas
    {
      ideas := Filter(ideas, (idea: Idea) => idea.id != id);
    }

    /** `navigate`: always switches the page; the selected category changes only when one is given. */
    method Navigate(page: string, category: Option<Category>)
      modifies this`currentPage, this`selectedCategory
      ensures currentPage == page
      ensures category.Some? ==> selectedCategory == category
      ensures category.None? ==> selectedCategory == old(selectedCategory)
    {
      currentPage := page;
      if category.Some? {
        selectedCategory := category;
      }
    }
  }
}
