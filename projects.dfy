/**
 * The project store: a local mirror of the `projects` table, the project the
 * UI has selected, and the create/update/delete operations that patch the
 * mirror from the server's answers.
 */
module Projects {
  import opened Wrappers
  import opened Gateway
  import Mirror

  /** A project row as the server stores and returns it. */
  datatype Project = Project(id: int, projectName: string)

  function ProjectId(p: Project): int { p.id }

  /** What a caller passes to create or update a project: a name and any other fields. */
  datatype ProjectInput = ProjectInput(projectName: string, otherFields: map<string, string>)

  /** The row sent to the server: the name alone. */
  datatype ProjectPayload = ProjectPayload(projectName: string)

  function Payload(input: ProjectInput): (p: ProjectPayload)
    ensures p.projectName == input.projectName
  {
    ProjectPayload(input.projectName)
  }

  /** The fields that are not the name never reach the server. */
  lemma PayloadIgnoresOtherFields(a: ProjectInput, b: ProjectInput)
    requires a.projectName == b.projectName
    ensures Payload(a) == Payload(b)
  {
  }

  class ProjectStore {
    var projects: seq<Project>
    var loading: bool
    var selectedProject: Option<Project>

    constructor ()
      ensures projects == [] && !loading && selectedProject == None
    {
      projects := [];
      loading := false;
      selectedProject := None;
    }

    /** Replaces the mirror with the fetched rows; on an error keeps it and rethrows. */
    method FetchProjects(response: Response<Option<seq<Project>>>) returns (r: Result<()>)
      modifies this
      ensures !loading && selectedProject == old(selectedProject)
      ensures response.Ok? ==> r == Success(()) && projects == RowsOrEmpty(response.data)
      ensures response.Failed? ==> r == Failure(Remote(response.error)) && projects == old(projects)
    {
      loading := true;
      match response {
        case Ok(data) =>
          projects := RowsOrEmpty(data);
          r := Success(());
        case Failed(e) =>
          r := Failure(Remote(e));
      }
      loading := false;
    }

    /** Submits the name alone as `sent` and prepends the row the server returns. */
    method CreateProject(input: ProjectInput, response: Response<Option<seq<Project>>>)
      returns (sent: ProjectPayload, r: Result<Option<Project>>)
      modifies this
      ensures sent == Payload(input)
      ensures !loading && selectedProject == old(selectedProject)
      ensures response.Failed? ==> r == Failure(Remote(response.error))
      ensures response.Ok? ==> r == FirstRow(response.data)
      ensures projects == if r.Success? && r.value.Some? then [r.value.value] + old(projects) else old(projects)
    {
      loading := true;
      sent := Payload(input);
      match response {
        case Failed(e) =>
          r := Failure(Remote(e));
        case Ok(data) =>
          if data.Some? && data.value != [] {
            projects := [data.value[0]] + projects;
          }
          r := FirstRow(data);
      }
      loading := false;
    }

    /** Submits the new name for `id` and puts the server's row in place of the first project with that id. */
    method UpdateProject(id: int, input: ProjectInput, response: Response<Option<seq<Project>>>)
      returns (sent: ProjectPayload, r: Result<Option<Project>>)
      modifies this
      ensures sent == Payload(input)
      ensures !loading && selectedProject == old(selectedProject)
      ensures response.Failed? ==> r == Failure(Remote(response.error))
      ensures response.Ok? ==> r == FirstRow(response.data)
      ensures projects == if r.Success? && r.value.Some?
                          then Mirror.ReplaceFirst(old(projects), ProjectId, id, r.value.value)
                          else old(projects)
    {
      loading := true;
      sent := Payload(input);
      match response {
        case Failed(e) =>
          r := Failure(Remote(e));
        case Ok(data) =>
          var index := Mirror.FindIndex(projects, ProjectId, id);
          if index != -1 && data.Some? && data.value != [] {
            projects := projects[index := data.value[0]];
          }
          r := FirstRow(data);
      }
      loading := false;
    }

    /** Removes every project with `id` once the server confirms, and clears the selection if it had that id. */
    method DeleteProject(id: int, response: Response<()>) returns (r: Result<()>)
      modifies this
      ensures !loading
      ensures response.Ok? ==> r == Success(()) && projects == Mirror.RemoveId(old(projects), ProjectId, id)
      ensures response.Ok? && old(selectedProject).Some? && old(selectedProject).value.id == id ==> selectedProject == None
      ensures response.Ok? && !(old(selectedProject).Some? && old(selectedProject).value.id == id) ==>
                selectedProject == old(selectedProject)
      ensures response.Failed? ==> r == Failure(Remote(response.error))
      ensures response.Failed? ==> projects == old(projects) && selectedProject == old(selectedProject)
    {
      loading := true;
      match response {
        case Ok(_) =>
          projects := Mirror.RemoveId(projects, ProjectId, id);
          if selectedProject.Some? && selectedProject.value.id == id {
            selectedProject := None;
          }
          r := Success(());
        case Failed(e) =>
          r := Failure(Remote(e));
      }
      loading := false;
    }

    /** Sets the selection to `project`, or clears it; nothing else changes. */
    method SelectProject(project: Option<Project>)
      modifies this
      ensures selectedProject == project
      ensures projects == old(projects) && loading == old(loading)
    {
      selectedProject := project;
    }
  }
}
