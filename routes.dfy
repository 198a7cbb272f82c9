/**
 * The application's routes that the modelled handlers navigate to.
 */
module Routes {
  /** The manuscript editor. */
  const EditorRoute := "/project/editor"

  /** The project list, where a page without a current project sends the user. */
  const DashboardRoute := "/dashboard"
}
