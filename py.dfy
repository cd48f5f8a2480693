/** Python values that the installer's objects hold. */
module Py {

  datatype Option<+T> = None | Some(value: T)

  /** An attribute of a Python object: never assigned (reading it raises
      `AttributeError`), assigned `None`, or assigned a value. */
  datatype Attr<+T> = Unassigned | PyNone | Assigned(value: T)

  /** What `os.path` sees at a path that exists. */
  datatype Entry = Directory | RegularFile

  /** A snapshot of the file system: the paths that exist and their kind. */
  type FileSystem = map<string, Entry>

  /** `os.path.exists(p)`. */
  predicate Exists(fs: FileSystem, p: string) {
    p in fs
  }

  /** `os.path.isfile(p)`. */
  predicate IsFile(fs: FileSystem, p: string) {
    p in fs && fs[p] == RegularFile
  }

  /** `os.path.isdir(p)`. */
  predicate IsDir(fs: FileSystem, p: string) {
    p in fs && fs[p] == Directory
  }

  /** `'{}'.format(x)` for an attribute that holds a string or `None`. */
  function FormatAttr(a: Attr<string>): (r: string)
    requires !a.Unassigned?
    ensures a.PyNone? ==> r == "None"
    ensures a.Assigned? ==> r == a.value
  {
    if a.PyNone? then "None" else a.value
  }
}
