/** The controller (src/app.rs): the `App` object whose methods update its fields in place.
    Every method is proved to change the fields exactly as the matching function of
    `AppSpec` says, and `Update` to keep the controller's invariant. */
module AppImpl {
  import opened Wrappers
  import opened Actions
  import opened Views
  import opened Fetch
  import opened Input
  import Ui
  import opened AppSpec

  class App {
    var running: bool
    var selectedIndex: nat
    /** The selection of the list widget's state. */
    var listState: Option<nat>
    const navigation: NavigationStack
    /** Whether a configuration was loaded; its contents stay with the remote `Provider`. */
    var configLoaded: bool
    var profiles: seq<string>
    var error: Option<string>
    var selectedProfile: Option<string>
    var projects: seq<string>
    var targets: seq<string>
    var services: seq<string>
    var schemaContent: Option<string>
    var supergraphContent: Option<string>
    var subgraphSdls: seq<(string, string)>
    var scrollOffset: u16
    var showingSupergraph: bool

    /** The state these fields hold. */
    ghost function Model(): State
      reads this, navigation
    {
      State(running, selectedIndex, listState, navigation.Model(), configLoaded, profiles, error,
            selectedProfile, projects, targets, services, schemaContent, supergraphContent,
            subgraphSdls, scrollOffset, showingSupergraph)
    }

    ghost predicate Valid()
      reads this, navigation
    {
      Inv(Model())
    }

    /** `App::new`, given the outcome of loading the configuration: the profile names, or
        the loader's error text. */
    constructor (config: Result<seq<string>, string>)
      ensures Model() == Init(config)
      ensures Valid()
      ensures fresh(navigation)
    {
      running := true;
      selectedIndex := 0;
      listState := Some(0);
      navigation := new NavigationStack();
      match config {
        case Success(names) =>
          configLoaded, profiles, error := true, names, None;
        case Failure(e) =>
          configLoaded, profiles, error := false, [], Some(ConfigErrorPrefix + e);
      }
      selectedProfile := None;
      projects, targets, services := [], [], [];
      schemaContent, supergraphContent := None, None;
      subgraphSdls := [];
      scrollOffset := 0;
      showingSupergraph := false;
      new;
      InitEstablishesInv(config);
    }

    method ResetSelection()
      modifies this
      ensures Model() == AppSpec.ResetSelection(old(Model()))
    {
      selectedIndex := 0;
      listState := Some(0);
    }

    method LoadProjects(p: Provider) returns (r: Outcome<string>)
      modifies this
      ensures match AppSpec.LoadProjects(old(Model()), p)
              case Success(s) => r == Pass && Model() == s
              case Failure(e) => r == Fail(e) && Model() == old(Model())
    {
      if !configLoaded {
        return Fail(NoConfig);
      }
      var reply := p.listProjects();
      match reply {
        case Failure(e) =>
          return Fail(e);
        case Success(org) =>
          projects := ProjectSlugs(org.projectSlugs);
          error := None;
          return Pass;
      }
    }

    method LoadTargets(p: Provider, project: string) returns (r: Outcome<string>)
      modifies this
      ensures match AppSpec.LoadTargets(old(Model()), p, project)
              case Success(s) => r == Pass && Model() == s
              case Failure(e) => r == Fail(e) && Model() == old(Model())
    {
      if !configLoaded {
        return Fail(NoConfig);
      }
      var reply := p.targetsByProject(project);
      match reply {
        case Failure(e) =>
          return Fail(e);
        case Success(d) =>
          targets := TargetSlugs(d);
          error := None;
          return Pass;
      }
    }

    method LoadServices(p: Provider, project: string, target: string) returns (r: Outcome<string>)
      modifies this
      ensures match AppSpec.LoadServices(old(Model()), p, project, target)
              case Success(s) => r == Pass && Model() == s
              case Failure(e) => r == Fail(e) && Model() == old(Model())
    {
      if !configLoaded {
        return Fail(NoConfig);
      }
      var reply := p.servicesByTarget(project, target);
      match reply {
        case Failure(e) =>
          return Fail(e);
        case Success(d) =>
          StoreVersion(d);
          return Pass;
      }
    }

    /** Stores the services, subgraph entries and supergraph of the latest version. */
    method StoreVersion(d: VersionData)
      modifies this
      ensures Model() == AppSpec.StoreVersion(old(Model()), d)
    {
      match d.latestVersion {
        case Some(latest) =>
          supergraphContent := latest.supergraph;
          subgraphSdls := SubgraphEntries(latest.schemas);
          services := ServiceNames(latest.schemas);
        case None =>
          supergraphContent := None;
          subgraphSdls := [];
          services := [];
      }
      error := None;
    }

    /** `handle_select` at the root: record the profile, fetch the projects, enter them. */
    method SelectProfile(p: Provider, item: string)
      modifies this, navigation
      ensures var s1 := old(Model()).(selectedProfile := Some(item));
              Model() == Descend(s1, AppSpec.LoadProjects(s1, p), Projects)
    {
      selectedProfile := Some(item);
      var r := LoadProjects(p);
      if r.Fail? {
        error := Some(r.error);
        return;
      }
      navigation.Push(Projects);
      ResetSelection();
    }

    /** `handle_select` on a project: fetch its targets, enter them. */
    method SelectProject(p: Provider, project: string)
      modifies this, navigation
      ensures Model() == Descend(old(Model()), AppSpec.LoadTargets(old(Model()), p, project), Targets(project))
    {
      var r := LoadTargets(p, project);
      if r.Fail? {
        error := Some(r.error);
        return;
      }
      navigation.Push(Targets(project));
      ResetSelection();
    }

    /** `handle_select` on a target: fetch its latest version, enter its services. */
    method SelectTarget(p: Provider, project: string, target: string)
      modifies this, navigation
      ensures Model() == Descend(old(Model()), AppSpec.LoadServices(old(Model()), p, project, target),
                                 Services(project, target))
    {
      var r := LoadServices(p, project, target);
      if r.Fail? {
        error := Some(r.error);
        return;
      }
      navigation.Push(Services(project, target));
      ResetSelection();
    }

    /** `handle_select` on a service: show its SDL in the schema view, fetching nothing. */
    method SelectService(project: string, target: string, service: string)
      modifies this, navigation
      ensures var s1 := old(Model()).(scrollOffset := 0, showingSupergraph := false,
                                      schemaContent := FindSdl(old(subgraphSdls), service));
              Model() == AppSpec.ResetSelection(s1.(nav := s1.nav.Push(Schema(project, target, service))))
    {
      scrollOffset := 0;
      showingSupergraph := false;
      schemaContent := FindSdl(subgraphSdls, service);
      navigation.Push(Schema(project, target, service));
      ResetSelection();
    }

    method HandleSelect(p: Provider)
      modifies this, navigation
      ensures Model() == AppSpec.HandleSelect(old(Model()), p)
    {
      var items := Ui.ItemsForView(navigation.current, profiles, projects, targets, services);
      var selectedItem := if selectedIndex < |items| then items[selectedIndex] else "";
      match navigation.current {
        case ProfileSelect =>
          SelectProfile(p, selectedItem);
        case Projects =>
          SelectProject(p, selectedItem);
        case Targets(project) =>
          SelectTarget(p, project, selectedItem);
        case Services(project, target) =>
          SelectService(project, target, selectedItem);
        case Schema(_, _, _) =>
      }
    }

    method MoveUp()
      modifies this
      ensures Model() == AppSpec.MoveUp(old(Model()))
    {
      if navigation.current.Schema? {
        scrollOffset := SaturatingDec(scrollOffset as nat) as u16;
      } else {
        selectedIndex := SaturatingDec(selectedIndex);
        listState := Some(selectedIndex);
      }
    }

    method MoveDown()
      modifies this
      ensures Model() == AppSpec.MoveDown(old(Model()))
    {
      if navigation.current.Schema? {
        scrollOffset := SaturatingInc(scrollOffset);
      } else {
        var items := Ui.ItemsForView(navigation.current, profiles, projects, targets, services);
        var max := SaturatingDec(|items|);
        if selectedIndex < max {
          selectedIndex := selectedIndex + 1;
          listState := Some(selectedIndex);
        }
      }
    }

    method GoBack()
      modifies this, navigation
      ensures Model() == AppSpec.GoBack(old(Model()))
    {
      var popped := navigation.Pop();
      if popped {
        ResetSelection();
      }
    }

    method ToggleSchema()
      modifies this
      ensures Model() == AppSpec.ToggleSchema(old(Model()))
    {
      showingSupergraph := !showingSupergraph;
      scrollOffset := 0;
      if showingSupergraph {
        schemaContent := supergraphContent;
      } else if navigation.current.Schema? {
        schemaContent := FindSdl(subgraphSdls, navigation.current.service);
      }
    }

    /** `update`: applies one action, and keeps the controller's invariant. */
    method Update(action: Action, p: Provider)
      modifies this, navigation
      ensures Model() == AppSpec.Update(old(Model()), action, p)
      ensures old(Valid()) ==> Valid()
    {
      ghost var before := Model();
      match action {
        case Quit => running := false;
        case NavigateUp => MoveUp();
        case NavigateDown => MoveDown();
        case Select => HandleSelect(p);
        case Back => GoBack();
        case ToggleSupergraph => ToggleSchema();
        case Tick =>
        case Render =>
      }
      if Inv(before) {
        UpdatePreservesInv(before, action, p);
      }
    }
  }

  /** The event loop of src/main.rs without the terminal: builds the controller from the
      outcome of loading the configuration, then feeds it the key presses in order, each one
      that maps to an action applied, until the keys run out or the controller stops. */
  method RunSession(config: Result<seq<string>, string>, keys: seq<KeyEvent>, p: Provider)
    returns (app: App)
    ensures app.Model() == Run(Init(config), keys, p)
    ensures app.Valid()
  {
    app := new App(config);
    var i := 0;
    while i < |keys| && app.running
      invariant 0 <= i <= |keys|
      invariant app.Valid()
      invariant Run(app.Model(), keys[i..], p) == Run(Init(config), keys, p)
      modifies app, app.navigation
    {
      assert keys[i..][1..] == keys[i + 1..];
      match HandleKeyEvent(keys[i]) {
        case Some(action) => app.Update(action, p);
        case None =>
      }
      i := i + 1;
    }
  }
}
