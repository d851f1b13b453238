/**
 * The prefixed file store of registrar/apps/core/filestore.py.  Every
 * operation acts on `posixpath.join(path_prefix, path)`; contents are stored
 * as UTF-8 and decoded on the way back.  The file-system store reads in text
 * mode, so its universal newlines turn "\r\n" and a lone "\r" into "\n"; the
 * S3 store hands back the bytes, which are decoded as they are.  The file-system store builds its
 * urls with `to_absolute_api_url`, which is not part of this model and is a
 * parameter; the S3 store asks the backend.
 */
module Filestore {
  import opened Wrappers
  import opened Utf8
  import opened Text
  import Storage

  /** `posixpath.join(a, b)`. */
  function PosixJoin(a: string, b: string): (r: string)
    ensures StartsWith(b, "/") ==> r == b
    ensures !StartsWith(b, "/") && (a == "" || a[|a| - 1] == '/') ==> r == a + b
    ensures !StartsWith(b, "/") && a != "" && a[|a| - 1] != '/' ==> r == a + "/" + b
  {
    if |b| > 0 && b[0] == '/' then b
    else if a == "" || a[|a| - 1] == '/' then a + b
    else a + "/" + b
  }

  /** Joining never loses the path: the result ends with it. */
  lemma PosixJoinEndsWithPath(a: string, b: string)
    ensures |PosixJoin(a, b)| >= |b| && PosixJoin(a, b)[|PosixJoin(a, b)| - |b|..] == b
  {
  }

  datatype Kind = FileSystemKind | S3Kind

  const FileSystemStorageName: string := "FileSystemStorage"
  const S3StorageName: string := "S3Boto3Storage"

  /** `get_filestore`: the store class for the configured backend class name. */
  function FilestoreKindFor(className: string): (r: Result<Kind, string>)
    ensures r == Ok(FileSystemKind) <==> className == FileSystemStorageName
    ensures r == Ok(S3Kind) <==> className == S3StorageName
    ensures r.Err? ==> r.error == "Unsupported storage backend for filestore: " + className
  {
    if className == FileSystemStorageName then Ok(FileSystemKind)
    else if className == S3StorageName then Ok(S3Kind)
    else Err("Unsupported storage backend for filestore: " + className)
  }

  datatype Retrieved =
    | Contents(text: string)
    | Missing          // IOError: one exception logged, None returned
    | Undecodable      // UnicodeDecodeError propagates

  /** Universal newlines of a text-mode read: "\r\n" and a lone "\r" both become "\n". */
  function NormalizeNewlines(s: string): (r: string)
    ensures |r| <= |s|
    ensures forall i :: 0 <= i < |r| ==> r[i] != '\r'
    ensures (forall i :: 0 <= i < |s| ==> s[i] != '\r') ==> r == s
  {
    if s == [] then []
    else if s[0] == '\r' then "\n" + NormalizeNewlines(if |s| > 1 && s[1] == '\n' then s[2..] else s[1..])
    else [s[0]] + NormalizeNewlines(s[1..])
  }

  /** Reading text back a second time changes nothing more. */
  lemma NormalizeIdempotent(s: string)
    ensures NormalizeNewlines(NormalizeNewlines(s)) == NormalizeNewlines(s)
  {
  }

  /** A csv row ending "\r\n", as Python's csv writer ends rows, reads back ending "\n". */
  lemma {:induction false} NormalizeCsvRow(row: string)
    requires forall i :: 0 <= i < |row| ==> row[i] != '\r'
    ensures NormalizeNewlines(row + "\r\n") == row + "\n"
  {
    if row != [] {
      assert (row + "\r\n")[1..] == row[1..] + "\r\n";
      NormalizeCsvRow(row[1..]);
      assert [row[0]] + (row[1..] + "\n") == row + "\n";
    } else {
      assert ("\r\n")[2..] == [];
    }
  }

  /** What reading `fullPath` from `files` yields, for a store of the given kind. */
  function Read(kind: Kind, files: map<string, seq<byte>>, fullPath: string): (r: Retrieved)
    ensures r == Missing <==> fullPath !in files
    ensures r == Undecodable <==> fullPath in files && Decode(files[fullPath]).None?
    ensures r.Contents? && kind == S3Kind ==> Encode(r.text) == files[fullPath]
    ensures r.Contents? && kind == FileSystemKind ==>
      exists t :: Encode(t) == files[fullPath] && r.text == NormalizeNewlines(t)
  {
    if fullPath !in files then Missing
    else match Decode(files[fullPath])
      case None => Undecodable
      case Some(text) =>
        EncodeDecode(files[fullPath]);
        if kind == FileSystemKind then Contents(NormalizeNewlines(text)) else Contents(text)
  }

  /**
   * Reading back the encoding of a string gives the string, including the
   * empty one, with its line endings normalised by the file-system store.
   */
  lemma ReadAfterWrite(kind: Kind, files: map<string, seq<byte>>, fullPath: string, contents: string)
    ensures Read(kind, files[fullPath := Encode(contents)], fullPath)
         == Contents(if kind == FileSystemKind then NormalizeNewlines(contents) else contents)
  {
    DecodeEncode(contents);
  }

  /** Text without carriage returns reads back exactly from either store. */
  lemma ReadAfterWriteExact(kind: Kind, files: map<string, seq<byte>>, fullPath: string, contents: string)
    requires forall i :: 0 <= i < |contents| ==> contents[i] != '\r'
    ensures Read(kind, files[fullPath := Encode(contents)], fullPath) == Contents(contents)
  {
    ReadAfterWrite(kind, files, fullPath, contents);
  }

  class FilestoreInstance {
    const backend: Storage.Backend
    const pathPrefix: string
    const kind: Kind
    /** `to_absolute_api_url(MEDIA_URL, full_path)` of the file-system store. */
    const absoluteUrl: string -> string
    var exceptionsLogged: nat

    constructor (backend: Storage.Backend, pathPrefix: string, kind: Kind, absoluteUrl: string -> string)
      ensures this.backend == backend && this.pathPrefix == pathPrefix && this.kind == kind
      ensures this.absoluteUrl == absoluteUrl && exceptionsLogged == 0
    {
      this.backend := backend;
      this.pathPrefix := pathPrefix;
      this.kind := kind;
      this.absoluteUrl := absoluteUrl;
      exceptionsLogged := 0;
    }

    /** `get_full_path`. */
    function FullPath(path: string): string
    {
      PosixJoin(pathPrefix, path)
    }

    /** `get_url`: both stores compute the url from the full path. */
    function Url(path: string): (url: string)
      ensures kind == S3Kind ==> url == backend.urlOf(FullPath(path))
      ensures kind == FileSystemKind ==> url == absoluteUrl(FullPath(path))
    {
      if kind == FileSystemKind then absoluteUrl(FullPath(path)) else backend.urlOf(FullPath(path))
    }

    /** `store`: save the UTF-8 bytes at the full path and return that path's url. */
    method Store(path: string, contents: string, freshName: string) returns (url: string)
      requires freshName !in backend.files
      modifies backend
      ensures url == Url(path)
      ensures backend.overwrites || FullPath(path) !in old(backend.files) ==>
        backend.files == old(backend.files)[FullPath(path) := Encode(contents)]
      ensures Exists(path)
      ensures backend.overwrites || FullPath(path) !in old(backend.files) ==>
        Read(kind, backend.files, FullPath(path))
          == Contents(if kind == FileSystemKind then NormalizeNewlines(contents) else contents)
    {
      var fullPath := FullPath(path);
      var saved := backend.Save(fullPath, Encode(contents), freshName);
      if saved == fullPath {
        ReadAfterWrite(kind, old(backend.files), fullPath, contents);
      }
      url := Url(path);
    }

    /** `retrieve`: the decoded contents (newlines normalised by the file-system store), or None with one logged exception when the file is missing. */
    method Retrieve(path: string) returns (r: Retrieved)
      modifies this
      ensures r == Read(kind, backend.files, FullPath(path))
      ensures exceptionsLogged == old(exceptionsLogged) + (if r == Missing then 1 else 0)
    {
      r := Read(kind, backend.files, FullPath(path));
      if r == Missing {
        exceptionsLogged := exceptionsLogged + 1;
      }
    }

    /** `delete`: a missing file is a harmless no-op. */
    method Delete(path: string)
      modifies backend
      ensures backend.files == old(backend.files) - {FullPath(path)}
      ensures !Exists(path)
    {
      backend.Delete(FullPath(path));
    }

    /** `exists`. */
    predicate Exists(path: string)
      reads backend
    {
      FullPath(path) in backend.files
    }
  }
}
