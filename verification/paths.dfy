/** The session's file triple: `ProfilerFiles::new` in profiler.rs. */
module Paths {
  import opened Base

  /** The last component of a path, split the way `Path::file_stem` and
      `Path::extension` split it. */
  datatype FileName = FileName(stem: string, ext: Option<string>)

  /** A path: everything up to and including its last separator, then its
      file name if it has one. A path without a file name (`/`, `..`, the
      empty path) keeps the whole of itself in `parent`. */
  datatype PathBuf = PathBuf(parent: string, name: Option<FileName>)

  /** `Path::with_extension`: keep the file stem and replace the extension
      (an empty extension removes it); a path without a file name comes back
      unchanged. */
  function WithExtension(p: PathBuf, ext: string): PathBuf
  {
    match p.name
    case None => p
    case Some(n) => p.(name := Some(FileName(n.stem, if ext == "" then None else Some(ext))))
  }

  /** The path as the operating system sees it. */
  function Render(p: PathBuf): string
  {
    p.parent +
    match p.name
    case None => ""
    case Some(n) => n.stem + (match n.ext case None => "" case Some(e) => "." + e)
  }

  /** The path with any extension of its file name taken off. */
  function StemText(p: PathBuf): string
  {
    p.parent + match p.name case None => "" case Some(n) => n.stem
  }

  const EVENTS_EXT: string := "events"
  const STRING_DATA_EXT: string := "string_data"
  const STRING_INDEX_EXT: string := "string_index"

  datatype ProfilerFiles = ProfilerFiles(eventsFile: PathBuf, stringDataFile: PathBuf, stringIndexFile: PathBuf)
  {
    /** The three files of a session, derived from one path stem. */
    static function New(pathStem: PathBuf): ProfilerFiles
    {
      ProfilerFiles(
        WithExtension(pathStem, EVENTS_EXT),
        WithExtension(pathStem, STRING_DATA_EXT),
        WithExtension(pathStem, STRING_INDEX_EXT))
    }
  }

  /** Each of the three files is the stem followed by a dot and its own
      extension, whatever extension the stem had. */
  lemma FilesOnSameStem(pathStem: PathBuf)
    requires pathStem.name.Some?
    ensures var f := ProfilerFiles.New(pathStem);
      && Render(f.eventsFile) == StemText(pathStem) + ".events"
      && Render(f.stringDataFile) == StemText(pathStem) + ".string_data"
      && Render(f.stringIndexFile) == StemText(pathStem) + ".string_index"
  {
  }

  /** The three files are pairwise distinct exactly when the stem has a file
      name; without one `with_extension` changes nothing and all three are
      the stem itself. */
  lemma FilesDistinct(pathStem: PathBuf)
    ensures var f := ProfilerFiles.New(pathStem);
      (Render(f.eventsFile) != Render(f.stringDataFile)
       && Render(f.stringDataFile) != Render(f.stringIndexFile)
       && Render(f.eventsFile) != Render(f.stringIndexFile))
      <==> pathStem.name.Some?
  {
  }
}
