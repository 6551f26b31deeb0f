/** The closed set of abstract actions the controller understands (src/action.rs). */
module Actions {

  datatype Action =
    | Quit
    | Tick
    | Render
    | NavigateUp
    | NavigateDown
    | Select
    | Back
    | ToggleSupergraph
}
