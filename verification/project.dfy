/** The project descriptor that flows from the analyzer to both generators. */
module Project {

  /** What the analysis found out about a project. `language` and `framework` are empty when
      undetected; `ports[0]` is the primary port; `database` is the database kind the user
      asked for, empty when none. */
  datatype ProjectType = ProjectType(
    language: string,
    framework: string,
    baseImage: string,
    dependencies: seq<string>,
    ports: seq<string>,
    database: string)

  /** The descriptor before any indicator file has been seen. */
  const EmptyProject := ProjectType("", "", "", [], [], "")
}
