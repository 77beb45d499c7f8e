/** Page resolution: the URL path of a request names the page script that
    serves it. The root path is an alias for the index page; any other path
    loses one leading slash; the script extension is appended. */
module Resolver {

  const Extension := ".js"
  const IndexPath := "/index"

  /** The script name has the script extension. */
  predicate HasExtension(name: string) {
    |name| >= |Extension| && name[|name| - |Extension|..] == Extension
  }

  /** Removes one leading slash, if there is one. */
  function TrimLeadingSlash(p: string): string {
    if |p| > 0 && p[0] == '/' then p[1..] else p
  }

  /** The file name, relative to the content root, of the script that
      serves `urlPath`. */
  function ScriptName(urlPath: string): string {
    var path := if urlPath == "/" then IndexPath else urlPath;
    TrimLeadingSlash(path) + Extension
  }

  /** Every resolved name has the script extension, and the root path
      resolves to the index script. */
  lemma ScriptNameHasExtension(urlPath: string)
    ensures HasExtension(ScriptName(urlPath))
    ensures urlPath == "/" ==> ScriptName(urlPath) == "index.js"
  {
    var name := ScriptName(urlPath);
    assert name[|name| - |Extension|..] == Extension;
  }

  /** The path a script name is reached by: the index script by the root
      path, every other script by a slash followed by its name without the
      extension. */
  function CanonicalPath(name: string): (p: string)
    requires HasExtension(name)
    ensures |p| >= 1 && p[0] == '/'
  {
    if name == "index.js" then "/" else "/" + name[..|name| - |Extension|]
  }

  /** Every script with a non-empty stem is served: its canonical path
      resolves to it. */
  lemma ScriptNameOfCanonicalPath(name: string)
    requires HasExtension(name) && |name| > |Extension|
    ensures ScriptName(CanonicalPath(name)) == name
  {
    var stem := name[..|name| - |Extension|];
    assert name == stem + Extension;
    if name != "index.js" {
      assert CanonicalPath(name) == "/" + stem;
      assert "/" + stem != "/";
      assert TrimLeadingSlash("/" + stem) == stem;
    }
  }

  /** Exactly one leading slash is removed: a path made of a slash and a
      non-empty rest resolves to the rest with the extension. */
  lemma ScriptNameStripsOneSlash(rest: string)
    requires rest != ""
    ensures ScriptName("/" + rest) == rest + Extension
  {
    assert "/" + rest != "/" by { assert |"/" + rest| >= 2; }
    assert ("/" + rest)[1..] == rest;
  }

  /** A path that does not start with a slash keeps all of its text: only
      the extension is appended (for instance `*` resolves to `*.js`). */
  lemma ScriptNameKeepsUnslashedPath(p: string)
    requires |p| == 0 || p[0] != '/'
    ensures ScriptName(p) == p + Extension
  {
    assert p != "/" by {
      if |p| > 0 { assert p[0] != "/"[0]; }
    }
  }

  /** Resolution loses nothing for a path that starts with a slash, other
      than the root alias: the canonical path of the resolved script is the
      path itself, except that "/index" and "/" lead back to "/". */
  lemma CanonicalPathOfScriptName(p: string)
    requires |p| >= 1 && p[0] == '/'
    ensures HasExtension(ScriptName(p)) && CanonicalPath(ScriptName(p)) == (if p == IndexPath then "/" else p)
  {
    ScriptNameHasExtension(p);
    var name := ScriptName(p);
    if p == "/" {
      assert name == "index.js";
    } else {
      var rest := p[1..];
      assert p == "/" + rest;
      assert rest != "";
      ScriptNameStripsOneSlash(rest);
      assert name == rest + Extension;
      assert name[..|name| - |Extension|] == rest;
      if p == IndexPath {
        assert rest == "index";
      } else {
        assert rest != "index";
      }
    }
  }

  /** Two slash-prefixed paths resolve to the same script only when they are
      equal, or when they are the root path and its alias "/index". */
  lemma ScriptNameCollisions(p: string, q: string)
    requires |p| >= 1 && p[0] == '/' && |q| >= 1 && q[0] == '/'
    requires ScriptName(p) == ScriptName(q)
    ensures p == q || {p, q} == {"/", IndexPath}
  {
    CanonicalPathOfScriptName(p);
    CanonicalPathOfScriptName(q);
  }
}
