/**
 * The Projects section: a fixed list of six projects, five category buttons
 * ('All' and the four project kinds) and the one piece of state the section
 * keeps, the active category, which decides which projects are shown.
 */
module Projects {
  import opened Wrappers
  import CategoryFilter

  datatype ProjectCategory = All | WebApps | Mobile | AIML | FullStack

  /** The text on each category button and badge. */
  function Label(c: ProjectCategory): string {
    match c
    case All => "All"
    case WebApps => "Web Apps"
    case Mobile => "Mobile"
    case AIML => "AI/ML"
    case FullStack => "Full-Stack"
  }

  datatype Project = Project(
    title: string,
    category: ProjectCategory,
    tags: seq<string>,
    liveUrl: Option<string>,
    githubUrl: Option<string>,
    featured: bool)

  const ECommercePlatform := Project(
    "E-Commerce Platform", FullStack, ["React", "Node.js", "MongoDB", "Stripe"],
    Some("https://example.com"), Some("https://github.com"), true)
  const AIChatbot := Project(
    "AI Chatbot", AIML, ["Python", "TensorFlow", "Flask", "React"],
    Some("https://example.com"), Some("https://github.com"), true)
  const TaskManagementApp := Project(
    "Task Management App", WebApps, ["Next.js", "Firebase", "Tailwind CSS"],
    Some("https://example.com"), Some("https://github.com"), false)
  const MobileFitnessTracker := Project(
    "Mobile Fitness Tracker", Mobile, ["React Native", "Node.js", "PostgreSQL"],
    Some("https://example.com"), Some("https://github.com"), false)
  const SocialMediaDashboard := Project(
    "Social Media Dashboard", WebApps, ["React", "D3.js", "Express", "MongoDB"],
    None, Some("https://github.com"), false)
  const WeatherForecastApp := Project(
    "Weather Forecast App", WebApps, ["Next.js", "TypeScript", "OpenWeather API"],
    Some("https://example.com"), Some("https://github.com"), false)

  /** The shipped projects, in display order. */
  const projects: seq<Project> := [
    ECommercePlatform, AIChatbot, TaskManagementApp,
    MobileFitnessTracker, SocialMediaDashboard, WeatherForecastApp
  ]

  /** The category buttons, in display order. */
  const categories: seq<ProjectCategory> := [All, WebApps, Mobile, AIML, FullStack]

  function CategoryOf(p: Project): ProjectCategory { p.category }

  /** The projects shown for the active category. */
  function FilteredProjects(active: ProjectCategory): seq<Project> {
    CategoryFilter.Visible(projects, CategoryOf, All, active)
  }

  /**
   * 'All' shows every project in order; any other category shows exactly the
   * projects tagged with it, in their original relative order, each once.
   */
  lemma FilteredProjectsSpec(active: ProjectCategory)
    ensures |FilteredProjects(active)| <= |projects| == 6
    ensures CategoryFilter.SubsequenceOf(FilteredProjects(active), projects)
    ensures active == All ==> FilteredProjects(active) == projects
    ensures active != All ==> forall i :: 0 <= i < |projects| ==>
      (projects[i] in FilteredProjects(active) <==> projects[i].category == active)
    ensures forall p :: p in FilteredProjects(active) ==> p in projects && (active == All || p.category == active)
    ensures CategoryFilter.Distinct(FilteredProjects(active))
  {
    TitlesDistinct();
    assert CategoryFilter.Distinct(projects);
    if active == All {
      CategoryFilter.SubsequenceOfSelf(projects);
    } else {
      CategoryFilter.MatchingIsSubsequence(projects, CategoryOf, active);
      CategoryFilter.MatchingDistinct(projects, CategoryOf, active);
    }
  }

  /** The section's state: the category whose button was clicked last. */
  class ProjectsView {
    var activeCategory: ProjectCategory

    constructor ()
      ensures activeCategory == All && Shown() == projects
    {
      activeCategory := All;
    }

    function Shown(): seq<Project>
      reads this
    {
      FilteredProjects(activeCategory)
    }

    /** Whether the `index`-th category button is drawn as the active one. */
    predicate ButtonMarked(index: nat)
      reads this
      requires index < |categories|
    {
      activeCategory == categories[index]
    }

    /** A click on the `index`-th category button. */
    method ClickButton(index: nat)
      requires index < |categories|
      modifies this
      ensures activeCategory == categories[index]
      ensures ButtonMarked(index)
    {
      activeCategory := categories[index];
    }
  }

  /**
   * Categories are compared as their label strings; distinct categories have
   * distinct labels, so comparing the values decides the same thing.
   */
  lemma LabelInjective(c: ProjectCategory, d: ProjectCategory)
    ensures Label(c) == Label(d) <==> c == d
  {
  }

  /** Every category value has a button, and the button labels are distinct. */
  lemma CategoriesComplete()
    ensures forall c: ProjectCategory :: c in categories
    ensures CategoryFilter.Distinct(categories)
  {
    forall c: ProjectCategory ensures c in categories {
      match c
      case All => assert categories[0] == c;
      case WebApps => assert categories[1] == c;
      case Mobile => assert categories[2] == c;
      case AIML => assert categories[3] == c;
      case FullStack => assert categories[4] == c;
    }
  }

  /** Whatever the active category, exactly one button is marked. */
  lemma ExactlyOneButtonMarked(active: ProjectCategory)
    ensures |CategoryFilter.MarkedButtons(categories, active)| == 1
  {
    CategoriesComplete();
    CategoryFilter.ExactlyOneMarked(categories, active);
  }

  /** No project is tagged 'All', so 'All' only ever acts as the wildcard. */
  lemma NoProjectTaggedAll()
    ensures forall p :: p in projects ==> p.category != All
  {
  }

  /** Project titles are distinct, so the title used as a render key names one card. */
  lemma TitlesDistinct()
    ensures forall i, j :: 0 <= i < j < |projects| ==> projects[i].title != projects[j].title
  {
  }

  /** The category of each shipped project, in display order. */
  lemma ShippedTags()
    ensures CategoryFilter.Tags(projects, CategoryOf)
         == [FullStack, AIML, WebApps, Mobile, WebApps, WebApps]
  {
  }

  /** Counting each kind among the shipped tags. */
  lemma CountShippedTags(c: ProjectCategory)
    requires c != All
    ensures CategoryFilter.Count([FullStack, AIML, WebApps, Mobile, WebApps, WebApps], c)
         == if c == WebApps then 3 else 1
  {
    var t0 := [FullStack, AIML, WebApps, Mobile, WebApps, WebApps];
    var t1 := [AIML, WebApps, Mobile, WebApps, WebApps];
    var t2 := [WebApps, Mobile, WebApps, WebApps];
    var t3 := [Mobile, WebApps, WebApps];
    var t4 := [WebApps, WebApps];
    var t5 := [WebApps];
    assert t0[1..] == t1 && t1[1..] == t2 && t2[1..] == t3;
    assert t3[1..] == t4 && t4[1..] == t5 && t5[1..] == [];
  }

  /** With the shipped data 'Web Apps' shows three projects and every other kind one. */
  lemma ShippedCounts(c: ProjectCategory)
    requires c != All
    ensures |FilteredProjects(c)| == if c == WebApps then 3 else 1
  {
    ShippedTags();
    CategoryFilter.MatchingLength(projects, CategoryOf, c);
    CountShippedTags(c);
  }
}
