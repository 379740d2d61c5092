/**
  Node's synchronous `fs` calls used by the indexer, over a file system
  modelled as a map from path to contents.
*/
module NodeFs {
  import opened Wrappers

  type Byte = b: int | 0 <= b < 256
  type Bytes = seq<Byte>

  class FileSystem {
    var files: map<string, Bytes>

    constructor (files: map<string, Bytes>)
      ensures this.files == files
    {
      this.files := files;
    }

    /** `fs.existsSync(path)` */
    method ExistsSync(path: string) returns (b: bool)
      ensures b <==> path in files
    {
      b := path in files;
    }

    /** `fs.readFileSync(path)`; `None` stands for the ENOENT it throws. */
    method ReadFileSync(path: string) returns (r: Option<Bytes>)
      ensures path in files ==> r == Some(files[path])
      ensures path !in files ==> r == None
    {
      r := if path in files then Some(files[path]) else None;
    }

    /** `fs.writeFileSync(path, content)`: creates or overwrites `path`. */
    method WriteFileSync(path: string, content: Bytes)
      modifies this
      ensures files == old(files)[path := content]
    {
      files := files[path := content];
    }

    /** `fs.unlinkSync(path)`; `ok` is false where Node throws ENOENT. */
    method UnlinkSync(path: string) returns (ok: bool)
      modifies this
      ensures ok <==> path in old(files)
      ensures files == old(files) - {path}
    {
      ok := path in files;
      files := files - {path};
    }
  }
}
