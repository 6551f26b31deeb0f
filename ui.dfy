/** The decisions the renderer makes (src/ui.rs): which items a view lists, and which texts
    the header, the footer and the schema pane show. Painting them is not modelled. */
module Ui {
  import opened Wrappers
  import opened Views

  const NoProfiles := "(No profiles found)"
  const NoProjects := "(No projects found)"
  const NoTargets := "(No targets found)"
  const NoServices := "(No services found)"
  /** The fixed menu of the schema view. */
  const SchemaMenu := ["View SDL", "View Supergraph"]

  /** `get_items_for_view`: the labels the list shows, and that the selection ranges over.
      A list view shows its dataset, or one placeholder when the dataset is empty; the
      schema view shows its fixed menu whatever the datasets hold. */
  function ItemsForView(view: ViewType, profiles: seq<string>, projects: seq<string>,
                        targets: seq<string>, services: seq<string>): (r: seq<string>)
    ensures |r| >= 1
    ensures view.ProfileSelect? ==> r == if profiles == [] then [NoProfiles] else profiles
    ensures view.Projects? ==> r == if projects == [] then [NoProjects] else projects
    ensures view.Targets? ==> r == if targets == [] then [NoTargets] else targets
    ensures view.Services? ==> r == if services == [] then [NoServices] else services
    ensures view.Schema? ==> r == SchemaMenu
  {
    match view
    case ProfileSelect => if profiles == [] then [NoProfiles] else profiles
    case Projects => if projects == [] then [NoProjects] else projects
    case Targets(_) => if targets == [] then [NoTargets] else targets
    case Services(_, _) => if services == [] then [NoServices] else services
    case Schema(_, _, _) => SchemaMenu
  }

  /** The list depends on the level of the view only, never on the identifiers it carries. */
  lemma ItemsDependOnLevelOnly(v: ViewType, w: ViewType, profiles: seq<string>,
                               projects: seq<string>, targets: seq<string>, services: seq<string>)
    requires v.Depth() == w.Depth()
    ensures ItemsForView(v, profiles, projects, targets, services)
         == ItemsForView(w, profiles, projects, targets, services)
  {
  }

  /** `render_header`: the title of the page. */
  function HeaderTitle(view: ViewType): (r: string)
    ensures view.ProfileSelect? ==> r == "Welcome to Orbit TUI - Profile Select"
    ensures !view.ProfileSelect? ==>
              |r| >= |LevelName(view)| && r[|r| - |LevelName(view)|..] == LevelName(view)
  {
    match view
    case ProfileSelect => "Welcome to Orbit TUI - Profile Select"
    case Projects => "Projects"
    case Targets(p) => p + " > Targets"
    case Services(p, t) => p + " > " + t + " > Services"
    case Schema(p, t, s) => p + " > " + t + " > " + s + " > Schema"
  }

  /** The name of a view's level. */
  function LevelName(view: ViewType): string {
    match view
    case ProfileSelect => "Profile Select"
    case Projects => "Projects"
    case Targets(_) => "Targets"
    case Services(_, _) => "Services"
    case Schema(_, _, _) => "Schema"
  }

  /** Parts separated by " > ". */
  function Breadcrumb(parts: seq<string>): string
    decreases |parts|
  {
    if parts == [] then ""
    else if |parts| == 1 then parts[0]
    else parts[0] + " > " + Breadcrumb(parts[1..])
  }

  /** Below the root, the header is the breadcrumb of the view's identifiers followed by the
      name of its level. */
  lemma HeaderIsBreadcrumb(view: ViewType)
    requires !view.ProfileSelect?
    ensures HeaderTitle(view) == Breadcrumb(view.Identifiers() + [LevelName(view)])
  {
    match view
    case Projects =>
    case Targets(p) =>
      TargetsHeader(p);
      assert view.Identifiers() + [LevelName(view)] == [p, "Targets"];
    case Services(p, t) =>
      ServicesHeader(p, t);
      assert view.Identifiers() + [LevelName(view)] == [p, t, "Services"];
    case Schema(p, t, s) =>
      SchemaHeader(p, t, s);
      assert view.Identifiers() + [LevelName(view)] == [p, t, s, "Schema"];
  }

  lemma TargetsHeader(p: string)
    ensures HeaderTitle(Targets(p)) == Breadcrumb([p, "Targets"])
  {
    BreadcrumbPair(p, "Targets");
    assert " > " + "Targets" == " > Targets";
  }

  lemma ServicesHeader(p: string, t: string)
    ensures HeaderTitle(Services(p, t)) == Breadcrumb([p, t, "Services"])
  {
    BreadcrumbPair(t, "Services");
    BreadcrumbCons(p, [t, "Services"]);
    assert [p, t, "Services"] == [p] + [t, "Services"];
    assert " > " + "Services" == " > Services";
  }

  lemma SchemaHeader(p: string, t: string, s: string)
    ensures HeaderTitle(Schema(p, t, s)) == Breadcrumb([p, t, s, "Schema"])
  {
    var tail := s + " > Schema";
    assert " > " + "Schema" == " > Schema";
    BreadcrumbPair(s, "Schema");
    assert Breadcrumb([s, "Schema"]) == tail;
    assert [t, s, "Schema"] == [t] + [s, "Schema"];
    BreadcrumbCons(t, [s, "Schema"]);
    assert [p, t, s, "Schema"] == [p] + [t, s, "Schema"];
    BreadcrumbCons(p, [t, s, "Schema"]);
    assert Breadcrumb([p, t, s, "Schema"]) == p + " > " + (t + " > " + tail);
  }

  lemma BreadcrumbPair(a: string, b: string)
    ensures Breadcrumb([a, b]) == a + " > " + b
  {
    assert [a, b][1..] == [b];
  }

  lemma BreadcrumbCons(a: string, rest: seq<string>)
    requires rest != []
    ensures Breadcrumb([a] + rest) == a + " > " + Breadcrumb(rest)
  {
    assert ([a] + rest)[1..] == rest;
  }

  const SchemaHint := " j/k: scroll │ Tab: toggle supergraph │ Esc: back │ q: quit "
  const BackHint := " j/k: navigate │ Enter: select │ Esc: back │ q: quit "
  const RootHint := " j/k: navigate │ Enter: select │ q: quit "

  /** `render_footer`: the key hints. The schema view's hint wins; elsewhere the hint
      mentions Esc exactly when there is a view to go back to. */
  function FooterHelp(view: ViewType, canGoBack: bool): (r: string)
    ensures view.Schema? <==> r == SchemaHint
    ensures r == BackHint <==> !view.Schema? && canGoBack
    ensures r == RootHint <==> !view.Schema? && !canGoBack
  {
    if view.Schema? then SchemaHint
    else if canGoBack then BackHint
    else RootHint
  }

  const SupergraphTitle := "Supergraph Schema - Press TAB to Switch"
  const SubgraphTitle := "Subgraph Schema - Press TAB to Switch"
  const NoSchema := "No schema available"

  /** `render_schema_viewer`: the pane's title names which schema is shown. */
  function SchemaPaneTitle(showingSupergraph: bool): (r: string)
    ensures showingSupergraph ==> r == SupergraphTitle
    ensures !showingSupergraph ==> r == SubgraphTitle
  {
    if showingSupergraph then SupergraphTitle else SubgraphTitle
  }

  /** `render_schema_viewer`: the pane shows the schema text, or a fallback when there is none. */
  function SchemaPaneText(content: Option<string>): (r: string)
    ensures content.None? ==> r == NoSchema
    ensures content.Some? ==> r == content.value
  {
    content.GetOr(NoSchema)
  }
}
