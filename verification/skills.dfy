/**
 * The Skills section: a fixed list of twenty-two skills, five category
 * buttons ('All' and four skill kinds) and the active category, which decides
 * which skills are shown.
 */
module Skills {
  import CategoryFilter

  datatype SkillCategory = All | Frontend | Backend | Database | Tools

  /** The text on each category button and tooltip. */
  function Label(c: SkillCategory): string {
    match c
    case All => "All"
    case Frontend => "Frontend"
    case Backend => "Backend"
    case Database => "Database"
    case Tools => "Tools"
  }

  /** A skill card; its icon and brand colour only style the card and are not part of this model. */
  datatype Skill = Skill(name: string, category: SkillCategory)

  const Html5 := Skill("HTML5", Frontend)
  const Css3 := Skill("CSS3", Frontend)
  const JavaScript := Skill("JavaScript", Frontend)
  const React := Skill("React", Frontend)
  const NextJs := Skill("Next.js", Frontend)
  const TypeScript := Skill("TypeScript", Frontend)
  const TailwindCss := Skill("Tailwind CSS", Frontend)
  const NodeJs := Skill("Node.js", Backend)
  const Python := Skill("Python", Backend)
  const Django := Skill("Django", Backend)
  const C := Skill("C", Backend)
  const CPlusPlus := Skill("C++", Backend)
  const MongoDB := Skill("MongoDB", Database)
  const PostgreSQL := Skill("PostgreSQL", Database)
  const MySQL := Skill("MySQL", Database)
  const Firebase := Skill("Firebase", Database)
  const Git := Skill("Git", Tools)
  const GitHub := Skill("GitHub", Tools)
  const VSCode := Skill("VS Code", Tools)
  const Figma := Skill("Figma", Tools)
  const Vercel := Skill("Vercel", Tools)
  const Aws := Skill("AWS", Tools)

  /** The shipped skills, in display order; they are listed grouped by kind. */
  const frontendSkills: seq<Skill> := [Html5, Css3, JavaScript, React, NextJs, TypeScript, TailwindCss]
  const backendSkills: seq<Skill> := [NodeJs, Python, Django, C, CPlusPlus]
  const databaseSkills: seq<Skill> := [MongoDB, PostgreSQL, MySQL, Firebase]
  const toolSkills: seq<Skill> := [Git, GitHub, VSCode, Figma, Vercel, Aws]
  const skills: seq<Skill> := frontendSkills + backendSkills + databaseSkills + toolSkills

  /** The category buttons, in display order. */
  const categories: seq<SkillCategory> := [All, Frontend, Backend, Database, Tools]

  function CategoryOf(s: Skill): SkillCategory { s.category }

  /** The skills shown for the active category. */
  function FilteredSkills(active: SkillCategory): seq<Skill> {
    CategoryFilter.Visible(skills, CategoryOf, All, active)
  }

  /**
   * 'All' shows every skill in order; any other category shows exactly the
   * skills tagged with it, in their original relative order, each once.
   */
  lemma FilteredSkillsSpec(active: SkillCategory)
    ensures |FilteredSkills(active)| <= |skills|
    ensures CategoryFilter.SubsequenceOf(FilteredSkills(active), skills)
    ensures active == All ==> FilteredSkills(active) == skills
    ensures active != All ==> forall i :: 0 <= i < |skills| ==>
      (skills[i] in FilteredSkills(active) <==> skills[i].category == active)
    ensures forall s :: s in FilteredSkills(active) ==> s in skills && (active == All || s.category == active)
    ensures CategoryFilter.Distinct(FilteredSkills(active))
  {
    NamesDistinct();
    assert CategoryFilter.Distinct(skills);
    if active == All {
      CategoryFilter.SubsequenceOfSelf(skills);
    } else {
      CategoryFilter.MatchingIsSubsequence(skills, CategoryOf, active);
      CategoryFilter.MatchingDistinct(skills, CategoryOf, active);
    }
  }

  /** The section's state: the category whose button was clicked last. */
  class SkillsView {
    var activeCategory: SkillCategory

    constructor ()
      ensures activeCategory == All && Shown() == skills
    {
      activeCategory := All;
    }

    function Shown(): seq<Skill>
      reads this
    {
      FilteredSkills(activeCategory)
    }

    /** Whether the `index`-th category button is drawn as the active one. */
    predicate ButtonMarked(index: nat)
      reads this
      requires index < |categories|
    {
      activeCategory == categories[index]
    }

    /** A click on the `index`-th category button; the section has no other state to change. */
    method ClickButton(index: nat)
      requires index < |categories|
      modifies this
      ensures activeCategory == categories[index]
      ensures Shown() == FilteredSkills(categories[index])
    {
      activeCategory := categories[index];
    }
  }

  /**
   * Categories are compared as their label strings; distinct categories have
   * distinct labels, so comparing the values decides the same thing.
   */
  lemma LabelInjective(c: SkillCategory, d: SkillCategory)
    ensures Label(c) == Label(d) <==> c == d
  {
  }

  /** Every category value has a button, and the button labels are distinct. */
  lemma CategoriesComplete()
    ensures forall c: SkillCategory :: c in categories
    ensures CategoryFilter.Distinct(categories)
  {
    forall c: SkillCategory ensures c in categories {
      match c
      case All => assert categories[0] == c;
      case Frontend => assert categories[1] == c;
      case Backend => assert categories[2] == c;
      case Database => assert categories[3] == c;
      case Tools => assert categories[4] == c;
    }
  }

  /** Whatever the active category, exactly one button is marked. */
  lemma ExactlyOneButtonMarked(active: SkillCategory)
    ensures |CategoryFilter.MarkedButtons(categories, active)| == 1
  {
    CategoriesComplete();
    CategoryFilter.ExactlyOneMarked(categories, active);
  }

  function NameOf(s: Skill): string { s.name }

  /**
   * The names of each group, in order. They repeat the names in the constants
   * above; `GroupNames` ties the two together, and with literal lists
   * `NamesDistinct` stays cheap to prove.
   */
  const frontendNames: seq<string> := ["HTML5", "CSS3", "JavaScript", "React", "Next.js", "TypeScript", "Tailwind CSS"]
  const backendNames: seq<string> := ["Node.js", "Python", "Django", "C", "C++"]
  const databaseNames: seq<string> := ["MongoDB", "PostgreSQL", "MySQL", "Firebase"]
  const toolNames: seq<string> := ["Git", "GitHub", "VS Code", "Figma", "Vercel", "AWS"]

  lemma GroupNames()
    ensures CategoryFilter.Tags(frontendSkills, NameOf) == frontendNames
    ensures CategoryFilter.Tags(backendSkills, NameOf) == backendNames
    ensures CategoryFilter.Tags(databaseSkills, NameOf) == databaseNames
    ensures CategoryFilter.Tags(toolSkills, NameOf) == toolNames
  {
  }

  /** Within each group no name repeats. */
  lemma GroupNamesDistinct()
    ensures CategoryFilter.Distinct(frontendNames) && CategoryFilter.Distinct(backendNames)
    ensures CategoryFilter.Distinct(databaseNames) && CategoryFilter.Distinct(toolNames)
  {
  }

  /** No name of a later group occurs in an earlier one. */
  lemma GroupNamesDisjoint()
    ensures forall n :: n in frontendNames ==> n !in backendNames
    ensures forall n :: n in frontendNames + backendNames ==> n !in databaseNames
    ensures forall n :: n in frontendNames + backendNames + databaseNames ==> n !in toolNames
  {
  }

  /** Skill names are distinct, so the name used as a render key names one card. */
  lemma NamesDistinct()
    ensures CategoryFilter.Distinct(CategoryFilter.Tags(skills, NameOf))
    ensures forall i, j :: 0 <= i < j < |skills| ==> skills[i].name != skills[j].name
  {
    GroupNames();
    CategoryFilter.TagsAppend(frontendSkills, backendSkills, NameOf);
    CategoryFilter.TagsAppend(frontendSkills + backendSkills, databaseSkills, NameOf);
    CategoryFilter.TagsAppend(frontendSkills + backendSkills + databaseSkills, toolSkills, NameOf);
    GroupNamesDistinct();
    GroupNamesDisjoint();
    CategoryFilter.DistinctAppend(frontendNames, backendNames);
    CategoryFilter.DistinctAppend(frontendNames + backendNames, databaseNames);
    CategoryFilter.DistinctAppend(frontendNames + backendNames + databaseNames, toolNames);
    var names := CategoryFilter.Tags(skills, NameOf);
    assert names == frontendNames + backendNames + databaseNames + toolNames;
    forall i, j | 0 <= i < j < |skills|
      ensures skills[i].name != skills[j].name
    {
      assert names[i] == skills[i].name && names[j] == skills[j].name;
    }
  }

  /** The shipped skills of one kind, as the list groups them. */
  function Group(c: SkillCategory): seq<Skill> {
    match c
    case All => skills
    case Frontend => frontendSkills
    case Backend => backendSkills
    case Database => databaseSkills
    case Tools => toolSkills
  }

  /** Each group holds only skills of its own kind. */
  lemma GroupsTagged()
    ensures CategoryFilter.AllTagged(frontendSkills, CategoryOf, Frontend)
    ensures CategoryFilter.AllTagged(backendSkills, CategoryOf, Backend)
    ensures CategoryFilter.AllTagged(databaseSkills, CategoryOf, Database)
    ensures CategoryFilter.AllTagged(toolSkills, CategoryOf, Tools)
  {
  }

  /**
   * Filtering the whole list filters each group in turn, and each group is
   * kept whole for its own kind and dropped for the others.
   */
  lemma FilterByGroup(c: SkillCategory)
    ensures CategoryFilter.Matching(skills, CategoryOf, c)
         == (if c == Frontend then frontendSkills else [])
          + (if c == Backend then backendSkills else [])
          + (if c == Database then databaseSkills else [])
          + (if c == Tools then toolSkills else [])
  {
    var f, fb, fbd := CategoryOf, frontendSkills + backendSkills, frontendSkills + backendSkills + databaseSkills;
    CategoryFilter.MatchingAppend(frontendSkills, backendSkills, f, c);
    CategoryFilter.MatchingAppend(fb, databaseSkills, f, c);
    CategoryFilter.MatchingAppend(fbd, toolSkills, f, c);
    GroupsTagged();
    CategoryFilter.MatchingUniform(frontendSkills, f, Frontend, c);
    CategoryFilter.MatchingUniform(backendSkills, f, Backend, c);
    CategoryFilter.MatchingUniform(databaseSkills, f, Database, c);
    CategoryFilter.MatchingUniform(toolSkills, f, Tools, c);
  }

  /** The number of skills of each kind in the shipped list: 7, 5, 4 and 6, 22 in all. */
  lemma ShippedGroupSizes()
    ensures |Group(Frontend)| == 7 && |Group(Backend)| == 5
    ensures |Group(Database)| == 4 && |Group(Tools)| == 6
    ensures |Group(Frontend)| + |Group(Backend)| + |Group(Database)| + |Group(Tools)| == |skills| == 22
  {
  }

  /** With the shipped data each kind's button shows exactly that kind's group, in order. */
  lemma ShippedFilters(c: SkillCategory)
    ensures FilteredSkills(c) == Group(c)
  {
    FilterByGroup(c);
    match c
    case All =>
    case Frontend => assert FilteredSkills(c) == frontendSkills + [] + [] + [];
    case Backend => assert FilteredSkills(c) == [] + backendSkills + [] + [];
    case Database => assert FilteredSkills(c) == [] + [] + databaseSkills + [];
    case Tools => assert FilteredSkills(c) == [] + [] + [] + toolSkills;
  }

  /** No skill is tagged 'All', so 'All' only ever acts as the wildcard. */
  lemma NoSkillTaggedAll()
    ensures forall s :: s in skills ==> s.category != All
  {
    GroupsTagged();
    forall s | s in skills
      ensures s.category != All
    {
      assert s in frontendSkills || s in backendSkills || s in databaseSkills || s in toolSkills;
    }
  }
}
