/**
 * Django's default storage backend, which the filestore and the job result
 * store both write through: a map from names to stored bytes.  A backend
 * that does not overwrite (the file-system storage) saves under a fresh
 * name when the name is taken, as `get_available_name` does; the fresh name
 * is the backend's choice and arrives as a parameter.  The url the backend
 * gives a name is a function of the name.
 */
module Storage {
  import opened Utf8

  class Backend {
    var files: map<string, seq<byte>>
    const overwrites: bool
    const urlOf: string -> string

    constructor (overwrites: bool, urlOf: string -> string)
      ensures files == map[] && this.overwrites == overwrites && this.urlOf == urlOf
    {
      files := map[];
      this.overwrites := overwrites;
      this.urlOf := urlOf;
    }

    /** The name `save(name, ...)` writes under. */
    function SavedName(name: string, freshName: string): string
      reads this
    {
      if name in files && !overwrites then freshName else name
    }

    /** `save(name, content)`: returns the name actually written. */
    method Save(name: string, content: seq<byte>, freshName: string) returns (saved: string)
      requires freshName !in files
      modifies this
      ensures saved == old(SavedName(name, freshName))
      ensures files == old(files)[saved := content]
      ensures saved == name <==> overwrites || name !in old(files)
    {
      saved := SavedName(name, freshName);
      files := files[saved := content];
    }

    /** `delete(name)`: removing a missing name does nothing. */
    method Delete(name: string)
      modifies this
      ensures files == old(files) - {name}
      ensures name !in files
      ensures name !in old(files) ==> files == old(files)
    {
      files := files - {name};
    }
  }
}
