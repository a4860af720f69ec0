/** The script files of internal/util/file_storage.go, in one folder. */
module FileStorage {
  /** How a write ended: the file could not be created, only the front of the data was written, or all of it. */
  datatype Outcome = NotCreated | Cut(front: string) | Written

  function AfterWrite(files: map<string, string>, name: string, data: string, o: Outcome): map<string, string> {
    match o
    case NotCreated => files
    case Cut(front) => files[name := front]
    case Written => files[name := data]
  }

  /** What a cut write leaves is a proper front of the data. */
  predicate Possible(data: string, o: Outcome) { o.Cut? ==> o.front < data }

  /** `stamp` is the current time written down to the second, and no further. */
  function GenUniqueFilename(stamp: string, ext: string): string { "script_" + stamp + "." + ext }

  /** Two scripts get the same name exactly when they are created within the same second. */
  lemma SameNameIff(stamp: string, other: string, ext: string)
    ensures GenUniqueFilename(stamp, ext) == GenUniqueFilename(other, ext) <==> stamp == other
  {
    var a, b := GenUniqueFilename(stamp, ext), GenUniqueFilename(other, ext);
    if a == b {
      assert |stamp| == |other|;
      assert stamp == a[7..7 + |stamp|] && other == b[7..7 + |stamp|];
    }
  }

  class FileStorage {
    var files: map<string, string>

    constructor ()
      ensures files == map[]
    {
      files := map[];
    }

    /** `Read`; `readable` says whether the system lets an existing file be read. */
    method Read(filename: string, readable: bool) returns (ok: bool, text: string)
      ensures ok <==> readable && filename in files
      ensures ok ==> text == files[filename]
    {
      if !readable || filename !in files { return false, ""; }
      return true, files[filename];
    }

    /**
     * `Write`: `created` says whether the folder and the file could be created, `sizes(i)` how much the i-th call
     * of the operating system takes, and `fails(i)` whether it returns an error. A call without an error takes at
     * least one byte; a failing one may have taken some but not all.
     */
    method Write(filename: string, data: string, created: bool, sizes: nat -> nat, fails: nat -> bool)
      returns (ok: bool, ghost o: Outcome)
      modifies this
      ensures Possible(data, o) && (ok <==> o.Written?) && (created <==> !o.NotCreated?)
      ensures files == AfterWrite(old(files), filename, data, o)
      ensures created && (forall i :: !fails(i)) ==> ok
    {
      if !created { return false, NotCreated; }
      files := files[filename := ""];
      var cntRead, i := 0, 0;
      while cntRead < |data|
        invariant 0 <= cntRead <= |data|
        invariant files == old(files)[filename := data[..cntRead]]
        invariant created
        decreases |data| - cntRead
      {
        var left := |data| - cntRead;
        if fails(i) {
          var n := sizes(i) % left;
          files := files[filename := data[..cntRead + n]];
          return false, Cut(data[..cntRead + n]);
        }
        var n := sizes(i) % left + 1;
        assert files[filename] + data[cntRead..cntRead + n] == data[..cntRead + n];
        files := files[filename := files[filename] + data[cntRead..cntRead + n]];
        cntRead, i := cntRead + n, i + 1;
      }
      assert data[..cntRead] == data;
      return true, Written;
    }
  }
}
