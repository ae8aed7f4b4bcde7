/** The keyword arguments shared by the revamp entry points. */
module Requests {
  import opened Wrappers

  /**
   * `github_url`, `hackathon_url`, `hackathon_context`, `search_topic` and
   * `search_order`, as `revamp_project`, `validate_inputs` and
   * `create_revamp_strategy` take them; an omitted argument is `None`.
   */
  datatype Request = Request(
    githubUrl: Option<string>,
    hackathonUrl: Option<string>,
    hackathonContext: Option<string>,
    searchTopic: Option<string>,
    searchOrder: string)

  /** The default of every `search_order` parameter. */
  const DefaultSearchOrder := "projects_first"
}
