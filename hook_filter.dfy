/** The keep/skip decision taken for every entry of the working directory
    (`shouldSkipFile`): lifecycle-hook manifests stay out of the package. */
module HookFilter {
  import opened Text

  /** What reading a file from the working directory gave. */
  datatype ReadResult = ReadOk(content: string) | ReadFailed

  /** One entry of the working directory, with the outcome of reading it. */
  datatype DirEntry = DirEntry(name: string, isDir: bool, read: ReadResult)

  /** The annotation key that marks a Helm lifecycle hook. */
  const HookMarker: string := "helm.sh/hook"

  /** Directories, unreadable files and files whose raw content mentions the
      hook marker anywhere are skipped; every other file is kept. */
  function ShouldSkipFile(entry: DirEntry): (skip: bool)
    ensures skip <==>
      entry.isDir || entry.read.ReadFailed? ||
      exists i :: OccursAt(entry.read.content, HookMarker, i)
  {
    if entry.isDir then true
    else if entry.read.ReadFailed? then true
    else Contains(entry.read.content, HookMarker)
  }
}
