/** The course sales page: the category filter over the fixed course catalogue, and the
    fact that the four category buttons other than 'all' split the catalogue between them. */
module Courses {
  import opened Common

  /** A category button. */
  datatype CourseCategory = CourseCategory(id: string, name: string)

  /** A course card, with the fields the filter and the card's price line read. */
  datatype Course = Course(
    id: int,
    title: string,
    duration: string,
    lessons: int,
    level: string,
    category: string,
    price: string,
    featured: bool)

  const AllCategory: string := "all"

  const Categories: seq<CourseCategory> := [
    CourseCategory("all", "All Courses"),
    CourseCategory("photography", "Photography"),
    CourseCategory("editing", "Editing"),
    CourseCategory("business", "Business"),
    CourseCategory("advanced", "Advanced")
  ]

  const Catalogue: seq<Course> := [
    Course(1, "Mastering Portrait Photography", "8 hours", 24, "Intermediate", "photography", "$149", true),
    Course(2, "Advanced Lightroom Editing", "6 hours", 18, "All Levels", "editing", "$129", false),
    Course(3, "Commercial Photography Pro", "10 hours", 30, "Advanced", "photography", "$199", true),
    Course(4, "Photoshop Masterclass", "12 hours", 36, "Intermediate", "editing", "$179", false),
    Course(5, "Photography Business Blueprint", "5 hours", 15, "All Levels", "business", "$99", false),
    Course(6, "Cinematic Videography", "9 hours", 27, "Intermediate", "advanced", "$169", true)
  ]

  /** The test `course => course.category === selected`. */
  function InCategory(selected: string): Course -> bool
  {
    (c: Course) => c.category == selected
  }

  /** `filteredCourses`: the whole list under 'all', otherwise the courses of the selected
      category, in catalogue order and with their multiplicities. */
  function FilteredCourses(courses: seq<Course>, selected: string): (r: seq<Course>)
    ensures selected == AllCategory ==> r == courses
    ensures selected != AllCategory ==> forall c :: c in r <==> c in courses && c.category == selected
    ensures selected != AllCategory ==>
              forall c :: multiset(r)[c] == if c.category == selected then multiset(courses)[c] else 0
    ensures |r| <= |courses|
  {
    if selected == AllCategory then courses
    else
      KeepCounts(courses, InCategory(selected));
      Keep(courses, InCategory(selected))
  }

  /** The filter keeps the catalogue order: filtering a concatenation concatenates the
      filtered parts. */
  lemma FilteredCoursesKeepsOrder(a: seq<Course>, b: seq<Course>, selected: string)
    ensures FilteredCourses(a + b, selected) == FilteredCourses(a, selected) + FilteredCourses(b, selected)
  {
    if selected != AllCategory {
      KeepAppend(a, b, InCategory(selected));
    }
  }

  // ---------------------------------------------------------------------------------
  // The category buttons partition the catalogue

  /** The ids of the buttons other than 'all'. */
  function FilterIds(categories: seq<CourseCategory>): (ids: seq<string>)
    ensures |ids| <= |categories|
    ensures forall id :: id in ids <==> id != AllCategory && exists c :: c in categories && c.id == id
  {
    if categories == [] then []
    else
      var rest := FilterIds(categories[1..]);
      assert forall c :: c in categories <==> c == categories[0] || c in categories[1..];
      if categories[0].id == AllCategory then rest else [categories[0].id] + rest
  }

  /** No id occurs twice. */
  predicate Distinct(ids: seq<string>)
  {
    forall i, j :: 0 <= i < j < |ids| ==> ids[i] != ids[j]
  }

  /** The number of entries shown over all the given filters together. */
  function ShownOver(courses: seq<Course>, ids: seq<string>): nat
  {
    if ids == [] then 0 else |FilteredCourses(courses, ids[0])| + ShownOver(courses, ids[1..])
  }

  /** How many of the ids equal `category`. */
  function Hits(category: string, ids: seq<string>): nat
  {
    if ids == [] then 0 else (if ids[0] == category then 1 else 0) + Hits(category, ids[1..])
  }

  /** Among distinct ids, a category that is one of them is hit exactly once. */
  lemma {:induction false} HitsOnce(category: string, ids: seq<string>)
    requires Distinct(ids) && category in ids
    ensures Hits(category, ids) == 1
  {
    if ids[0] == category {
      HitsNone(category, ids[1..]);
    } else {
      assert category in ids[1..];
      HitsOnce(category, ids[1..]);
    }
  }

  lemma {:induction false} HitsNone(category: string, ids: seq<string>)
    requires category !in ids
    ensures Hits(category, ids) == 0
  {
    if ids != [] {
      assert category !in ids[1..];
      HitsNone(category, ids[1..]);
    }
  }

  /** Prepending one course adds, over all the filters, the number of filters it passes. */
  lemma {:induction false} ShownOverCons(x: Course, rest: seq<Course>, ids: seq<string>)
    requires AllCategory !in ids
    ensures ShownOver([x] + rest, ids) == Hits(x.category, ids) + ShownOver(rest, ids)
  {
    if ids != [] {
      assert AllCategory !in ids[1..];
      ShownOverCons(x, rest, ids[1..]);
      KeepAppend([x], rest, InCategory(ids[0]));
      assert |FilteredCourses([x], ids[0])| == if x.category == ids[0] then 1 else 0;
    }
  }

  /** When every course's category is one of a set of distinct non-'all' filter ids, those
      filters together show every course exactly once: their lengths add up to the length
      of the list, and each course is shown by exactly one of them. */
  lemma {:induction false} FiltersPartition(courses: seq<Course>, ids: seq<string>)
    requires AllCategory !in ids && Distinct(ids)
    requires forall c :: c in courses ==> c.category in ids
    ensures ShownOver(courses, ids) == |courses|
    ensures forall c, id :: c in courses && id in ids ==>
              (c in FilteredCourses(courses, id) <==> id == c.category)
  {
    FiltersCount(courses, ids);
  }

  /** The counting half of `FiltersPartition`, by induction on the list. */
  lemma {:induction false} FiltersCount(courses: seq<Course>, ids: seq<string>)
    requires AllCategory !in ids && Distinct(ids)
    requires forall c :: c in courses ==> c.category in ids
    ensures ShownOver(courses, ids) == |courses|
  {
    if courses == [] {
      ShownNothing(ids);
    } else {
      var x, rest := courses[0], courses[1..];
      assert courses == [x] + rest;
      assert x in courses;
      assert forall c :: c in rest ==> c in courses;
      FiltersCount(rest, ids);
      ShownOverCons(x, rest, ids);
      HitsOnce(x.category, ids);
    }
  }

  lemma {:induction false} ShownNothing(ids: seq<string>)
    ensures ShownOver([], ids) == 0
  {
    if ids != [] {
      ShownNothing(ids[1..]);
    }
  }

  /** The four filter ids of the page, in button order. */
  lemma CatalogueFilterIds()
    ensures FilterIds(Categories) == ["photography", "editing", "business", "advanced"]
  {
  }

  /** Every course of the catalogue is in one of the four button categories, so by
      `FiltersPartition` the four filters split the six courses between them. */
  lemma CataloguePartitioned()
    ensures |Catalogue| == 6
    ensures forall c :: c in Catalogue ==> c.category in FilterIds(Categories)
    ensures ShownOver(Catalogue, FilterIds(Categories)) == |Catalogue|
  {
    CatalogueFilterIds();
    var ids := FilterIds(Categories);
    assert Distinct(ids);
    FiltersPartition(Catalogue, ids);
  }

  /** Each of the four buttons other than 'all' shows at least one course: photography
      the first, editing the second, business the fifth and advanced the sixth. */
  lemma CatalogueFilterNonEmpty(i: nat)
    requires i < |FilterIds(Categories)|
    ensures FilteredCourses(Catalogue, FilterIds(Categories)[i]) != []
  {
    CatalogueFilterIds();
    var cs, id := Catalogue, FilterIds(Categories)[i];
    var k := [0, 1, 4, 5][i];
    assert cs[k].category == id;
    assert cs[k] in FilteredCourses(cs, id);
  }
}
