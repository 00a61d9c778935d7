/**
  What the plugin can observe of a file: its size, its modification time and
  the two plugin headers ("Name" and "Version") that the host's header parser
  reads from it. The file-name helpers mirror the PHP calls the plugin makes on
  directory entries.
 */
module Files {

  /** One file as seen through stat() and the host's plugin-header parser. */
  datatype File = File(size: nat, mtime: int, headerName: string, headerVersion: string)

  /**
    The extension of a file name as SplFileInfo::getExtension reports it: the
    text after the last '.', or "" when the name has no '.' or ends in one.
   */
  function Extension(fn: string): (ext: string)
    ensures '.' !in ext
    ensures ext != [] ==> |ext| < |fn| && fn[|fn| - |ext| - 1] == '.' && fn[|fn| - |ext|..] == ext
    ensures ext == [] ==> '.' !in fn || fn[|fn| - 1] == '.'
  {
    if |fn| == 0 || fn[|fn| - 1] == '.' || '.' !in fn then []
    else
      var init := fn[..|fn| - 1];
      assert '.' in init by {
        var k :| 0 <= k < |fn| && fn[k] == '.';
        assert init[k] == '.';
      }
      Extension(init) + [fn[|fn| - 1]]
  }

  /** A name ending in ".php" is exactly a name whose extension is "php". */
  lemma {:induction false} PhpExtension(fn: string)
    ensures Extension(fn) == "php" <==> |fn| >= 4 && fn[|fn| - 4..] == ".php"
  {
    var ext := Extension(fn);
    if |fn| >= 4 && fn[|fn| - 4..] == ".php" {
      assert fn[|fn| - 4] == '.' && fn[|fn| - 1] == 'p';
      assert ext != [];
    }
  }

  /** `substr(s, 0, |prefix|) === prefix` for a non-empty prefix. */
  predicate StartsWith(s: string, prefix: string)
  {
    |prefix| <= |s| && s[..|prefix|] == prefix
  }
}
