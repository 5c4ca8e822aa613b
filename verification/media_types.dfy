/**
 * Content-type derivation of CustomWrapHandler (swagger.go:194-206): the
 * asset's extension, as Go's filepath.Ext finds it, selects one of five media
 * types; any other extension leaves the content type empty.
 */
module MediaTypes {

  /**
   * filepath.Ext on a slash-separated path: the suffix starting at the last
   * dot of the final path element, or "" when that element has no dot.
   */
  function Ext(path: string): (r: string)
    ensures |r| <= |path| && (r != "" ==> r[0] == '.')
  {
    ExtBefore(path, |path|)
  }

  /** The backward scan of filepath.Ext, from position n - 1 down to the nearest slash. */
  function ExtBefore(path: string, n: nat): (r: string)
    requires n <= |path|
    decreases n
    ensures |r| <= |path| && (r != "" ==> r[0] == '.')
  {
    if n == 0 then ""
    else if path[n - 1] == '/' then ""
    else if path[n - 1] == '.' then path[n - 1..]
    else ExtBefore(path, n - 1)
  }

  /** What the scan finds, given that path[n..] holds neither a dot nor a slash. */
  lemma {:induction false} ExtBeforeFinds(path: string, n: nat)
    requires n <= |path|
    requires forall j :: n <= j < |path| ==> path[j] != '.' && path[j] != '/'
    ensures var r := ExtBefore(path, n);
      && (r != "" ==> |r| <= |path| && r == path[|path| - |r|..] && r[0] == '.')
      && (r != "" ==> forall j :: |path| - |r| < j < |path| ==> path[j] != '.' && path[j] != '/')
      && (r == "" ==> forall j :: 0 <= j < |path| && path[j] == '.' ==> exists q :: j < q < |path| && path[q] == '/')
    decreases n
  {
    if n > 0 && path[n - 1] != '/' && path[n - 1] != '.' {
      ExtBeforeFinds(path, n - 1);
    }
  }

  /**
   * Ext(path) is the suffix that begins with the final element's last dot;
   * it is empty exactly when every dot of the path has a slash after it.
   */
  lemma ExtFinds(path: string)
    ensures var r := Ext(path);
      && (r != "" ==> |r| <= |path| && r == path[|path| - |r|..] && r[0] == '.')
      && (r != "" ==> forall j :: |path| - |r| < j < |path| ==> path[j] != '.' && path[j] != '/')
      && (r == "" ==> forall j :: 0 <= j < |path| && path[j] == '.' ==> exists q :: j < q < |path| && path[q] == '/')
  {
    ExtBeforeFinds(path, |path|);
  }

  /** The switch at swagger.go:195-206, on the extension. */
  function MediaType(ext: string): (r: string)
    ensures r != "" ==> IsExtension(ext)
  {
    if ext == ".html" then "text/html; charset=utf-8"
    else if ext == ".css" then "text/css; charset=utf-8"
    else if ext == ".js" then "application/javascript"
    else if ext == ".png" then "image/png"
    else if ext == ".json" then "application/json; charset=utf-8"
    else ""
  }

  /** The content type chosen for an asset path. */
  function ContentType(path: string): (r: string)
    ensures r != "" ==> IsExtension(Ext(path))
  {
    MediaType(Ext(path))
  }

  /** e can be an extension: a dot followed by neither a dot nor a slash. */
  predicate IsExtension(e: string) {
    |e| > 0 && e[0] == '.' && forall j :: 1 <= j < |e| ==> e[j] != '.' && e[j] != '/'
  }

  /** A path that ends in an extension has exactly that extension. */
  lemma {:induction false} ExtOfSuffix(path: string, e: string)
    requires IsExtension(e) && |e| <= |path| && path[|path| - |e|..] == e
    ensures Ext(path) == e
  {
    ExtFinds(path);
    var d := |path| - |e|;
    assert path[d] == '.' by { assert path[d] == path[d..][0]; }
  }

  /** The content type depends only on the extension the path ends with. */
  lemma ContentTypeOfSuffix(path: string, e: string)
    requires IsExtension(e) && |e| <= |path| && path[|path| - |e|..] == e
    ensures ContentType(path) == MediaType(e)
  {
    ExtOfSuffix(path, e);
  }
}
