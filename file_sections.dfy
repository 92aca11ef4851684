/** The section tags of the format and the errors a decoder reports.  The
    classifier itself (`get_section`) is not part of this model: the driver
    receives it as a parameter. */
module FileSections {

  /** `FileSections`: one tag per bracketed section name, and `NotHeader(line)`
      for every line that names no section (the source's `None(line)`). */
  datatype FileSection =
    | Format
    | General
    | Editor
    | Metadata
    | Difficulty
    | Events
    | TimingPoints
    | Colours
    | HitObjects
    | NotHeader(line: string)

  /** What the source's `unwrap()` and `todo!()` panics become. */
  datatype ParseError =
    | MissingColon(line: string)                 // `split_once(':')` found no colon
    | InvalidValue(key: string, value: string)   // a value converter failed
    | UnsupportedSection(section: FileSection)   // a content line in a section without a parser
}
