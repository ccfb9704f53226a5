/** The project list of app/projects/page.tsx: the constant list of
    projects, the category buttons, and the rule that picks the projects
    shown for the selected category. */
module Projects {

  /** A project as the filter and the list keys see it. */
  datatype Project = Project(id: nat, title: string, category: string, featured: bool)

  /** The projects in the order the page lists them. The sixth entry of the
      source, the one "Backend" project, is commented out there and so is
      absent here. Titles are written as concatenations of short pieces; the
      values are the source's titles. */
  function AllProjects(): seq<Project> {
    [ Project(1, "Starlight Music " + "- Live " + "Entertainment " + "Platform", "Full Stack", true),
      Project(2, "StarBridge - " + "CRM/CMS Platform", "Full Stack", true),
      Project(3, "Clubhouse " + "Central NY - " + "Childcare " + "Platform", "Full Stack", true),
      Project(4, "Portfolio " + "Website v1", "Frontend", false),
      Project(5, "Portfolio " + "Website v2 " + "(Current)", "Full Stack", false) ]
  }

  /** The category buttons, in order; "All" shows every project. */
  const Categories: seq<string> := ["All", "Full Stack", "Frontend", "Backend"]

  /** The projects of one category, in their original order
      (`projects.filter(p => p.category === c)`). */
  function OfCategory(ps: seq<Project>, category: string): (r: seq<Project>)
    ensures |r| <= |ps|
    ensures forall k | 0 <= k < |r| :: r[k].category == category
    decreases |ps|
  {
    if ps == [] then []
    else if ps[0].category == category then [ps[0]] + OfCategory(ps[1..], category)
    else OfCategory(ps[1..], category)
  }

  /** The projects shown for the selected category: every project for "All",
      otherwise only projects of that category. */
  function Shown(ps: seq<Project>, selected: string): (r: seq<Project>)
    ensures |r| <= |ps|
    ensures selected == "All" ==> r == ps
    ensures selected != "All" ==> forall k | 0 <= k < |r| :: r[k].category == selected
  {
    if selected == "All" then ps else OfCategory(ps, selected)
  }

  /** A project is shown for a category exactly when it is in the list and
      belongs to the category. */
  lemma {:induction false} OfCategoryMembers(ps: seq<Project>, category: string, p: Project)
    ensures p in OfCategory(ps, category) <==> p in ps && p.category == category
    decreases |ps|
  {
    if ps != [] {
      OfCategoryMembers(ps[1..], category, p);
      assert ps == [ps[0]] + ps[1..];
    }
  }

  /** Filtering distributes over concatenation: the relative order of the
      projects is kept. */
  lemma {:induction false} OfCategoryAppend(a: seq<Project>, b: seq<Project>, category: string)
    ensures OfCategory(a + b, category) == OfCategory(a, category) + OfCategory(b, category)
    decreases |a|
  {
    if a == [] {
      assert a + b == b;
    } else {
      assert (a + b)[0] == a[0] && (a + b)[1..] == a[1..] + b;
      OfCategoryAppend(a[1..], b, category);
    }
  }

  /** The filter keeps the list whole exactly when every project belongs to
      the category. */
  lemma {:induction false} OfCategoryWhole(ps: seq<Project>, category: string)
    ensures OfCategory(ps, category) == ps <==> forall k | 0 <= k < |ps| :: ps[k].category == category
    decreases |ps|
  {
    if ps != [] {
      OfCategoryWhole(ps[1..], category);
      if ps[0].category != category {
        assert |OfCategory(ps, category)| < |ps|;
      } else {
        assert OfCategory(ps, category) == [ps[0]] + OfCategory(ps[1..], category);
        if OfCategory(ps[1..], category) != ps[1..] {
          assert ps == [ps[0]] + ps[1..];
        }
        assert forall k | 1 <= k < |ps| :: ps[k] == ps[1..][k - 1];
      }
    }
  }

  /** `projects.filter(p => p.category === c)` as a loop. */
  method Filter(ps: seq<Project>, category: string) returns (r: seq<Project>)
    ensures r == OfCategory(ps, category)
  {
    r := [];
    var i := 0;
    while i < |ps|
      invariant 0 <= i <= |ps|
      invariant r == OfCategory(ps[..i], category)
    {
      assert ps[..i + 1] == ps[..i] + [ps[i]];
      OfCategoryAppend(ps[..i], [ps[i]], category);
      if ps[i].category == category {
        r := r + [ps[i]];
      }
      i := i + 1;
    }
    assert ps[..i] == ps;
  }

  /** The page's state: the selected category. */
  datatype Page = Page(selected: string)

  /** The page as first rendered: "All" is selected. */
  function Initial(): (p: Page)
    ensures Shown(AllProjects(), p.selected) == AllProjects()
  {
    Page("All")
  }

  /** A click on the button of category `i`. */
  function Click(p: Page, i: nat): (q: Page)
    requires i < |Categories|
    ensures q.selected == Categories[i] && q.selected in Categories
  {
    Page(Categories[i])
  }

  /** Any sequence of clicks leaves one of the four categories selected. */
  lemma {:induction false} ClicksSelectCategories(p: Page, clicks: seq<nat>)
    requires p.selected in Categories
    requires forall k | 0 <= k < |clicks| :: clicks[k] < |Categories|
    ensures Clicks(p, clicks).selected in Categories
    decreases |clicks|
  {
    if clicks != [] {
      ClicksSelectCategories(Click(p, clicks[0]), clicks[1..]);
    }
  }

  /** The page after a sequence of clicks. */
  function Clicks(p: Page, clicks: seq<nat>): Page
    requires forall k | 0 <= k < |clicks| :: clicks[k] < |Categories|
    decreases |clicks|
  {
    if clicks == [] then p else Clicks(Click(p, clicks[0]), clicks[1..])
  }

  /** The project ids. */
  function Ids(ps: seq<Project>): (ids: seq<nat>)
    ensures |ids| == |ps| && forall k | 0 <= k < |ps| :: ids[k] == ps[k].id
  {
    seq(|ps|, k requires 0 <= k < |ps| => ps[k].id)
  }

  /** What each button shows with the current data. */
  lemma ShownByCategory()
    ensures Ids(Shown(AllProjects(), "All")) == [1, 2, 3, 4, 5]
    ensures Ids(Shown(AllProjects(), "Full Stack")) == [1, 2, 3, 5]
    ensures Ids(Shown(AllProjects(), "Frontend")) == [4]
    ensures Shown(AllProjects(), "Backend") == []
  {
    var ps := AllProjects();
    assert ps[1..][1..][1..][1..][1..] == [];
  }

  /** The ids are distinct, so they are usable as list keys. */
  lemma DistinctIds()
    ensures forall i, j | 0 <= i < j < |AllProjects()| :: AllProjects()[i].id != AllProjects()[j].id
  {
  }

  /** Whatever is selected, the shown projects have distinct ids. */
  lemma ShownDistinctIds(selected: string, p: Project, q: Project)
    requires p in Shown(AllProjects(), selected) && q in Shown(AllProjects(), selected)
    requires p.id == q.id
    ensures p == q
  {
    if selected != "All" {
      OfCategoryMembers(AllProjects(), selected, p);
      OfCategoryMembers(AllProjects(), selected, q);
    }
    DistinctIds();
  }
}
