/**
 * The two path checks the controller makes, answered from a snapshot of the
 * file system that the caller supplies.
 */
module FileManager {

  /**
   * What the application can learn about the file system: which paths exist,
   * which are directories, which the user may execute, and for each directory
   * whose listing succeeds the entry names in enumeration order (a directory
   * missing from `listings` is one whose listing comes back null).
   */
  datatype FileSystem = FileSystem(
    existing: set<string>,
    directories: set<string>,
    executables: set<string>,
    listings: map<string, seq<string>>)

  /** The directory check: the path exists and is a directory. */
  predicate DirectoryExists(fs: FileSystem, path: string) {
    path in fs.existing && path in fs.directories
  }

  /** The executable check: the path is executable and is not a directory. */
  predicate FileExists(fs: FileSystem, path: string) {
    path in fs.executables && path !in fs.directories
  }
}
