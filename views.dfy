/** Template selection of the dashboard backend (views/views.go): a request
    path is trimmed of slashes and names the template to render; the empty
    path is the index page. */
module Views {
  import opened Text

  datatype Html = Html(status: int, template: string)

  /** The template name `ShowView` renders for a URL path. */
  function TemplateName(path: string): (name: string)
    ensures StartsWith(name, "templates/") && EndsWith(name, ".tmpl")
    ensures Trim(path, '/') == "" ==> name == "templates/index.tmpl"
    ensures Trim(path, '/') != "" ==> name == "templates/" + Trim(path, '/') + ".tmpl"
  {
    var trimmed := Trim(path, '/');
    var page := if trimmed == "" then "index" else trimmed;
    var name := "templates/" + page + ".tmpl";
    assert name[..|"templates/"|] == "templates/";
    assert name[|name| - |".tmpl"|..] == ".tmpl";
    name
  }

  function ShowView(path: string): (h: Html)
    ensures h.status == 200 && h.template == TemplateName(path)
  {
    Html(200, TemplateName(path))
  }

  /** `ErrorView` ignores the path. */
  function ErrorView(path: string): (h: Html)
    ensures h == Html(400, "templates/error.tmpl")
  {
    Html(400, "templates/error.tmpl")
  }

  /** The path of a template name: drop "templates/" and ".tmpl". */
  function PageOf(name: string): string
    requires StartsWith(name, "templates/") && EndsWith(name, ".tmpl") && |name| >= 15
  {
    name[10..|name| - 5]
  }

  /** A path consisting only of slashes, including the empty path, is the
      index page. */
  lemma OnlySlashesIsIndex(path: string)
    requires forall i :: 0 <= i < |path| ==> path[i] == '/'
    ensures TemplateName(path) == "templates/index.tmpl"
  {
  }

  /** The trimmed path has no slash at either end, and trimming again
      changes nothing. */
  lemma TrimmedPathShape(path: string)
    ensures var t := Trim(path, '/');
            t != "" ==> t[0] != '/' && t[|t| - 1] != '/'
    ensures Trim(Trim(path, '/'), '/') == Trim(path, '/')
  {
    TrimIdempotent(path, '/');
  }

  /** Slashes around a path do not change the template: "/login" and
      "/login/" and "login" select the same one. */
  lemma OuterSlashesIgnored(path: string)
    ensures TemplateName("/" + path) == TemplateName(path)
    ensures TemplateName(path + "/") == TemplateName(path)
  {
    TrimIgnoresOuterSeparators(path, '/');
  }

  /** A path with no slash at either end selects itself, interior slashes
      kept: "tenant/create" maps to "templates/tenant/create.tmpl", and the
      page is recovered from the name. */
  lemma InnerPathKept(path: string)
    requires path != "" && path[0] != '/' && path[|path| - 1] != '/'
    ensures TemplateName(path) == "templates/" + path + ".tmpl"
    ensures PageOf(TemplateName(path)) == path
  {
    TrimNoOuterSlash(path);
    var name := "templates/" + path + ".tmpl";
    assert |"templates/"| == 10 && |".tmpl"| == 5;
    assert name[10..|name| - 5] == path;
  }

  lemma TrimNoOuterSlash(s: string)
    requires s != [] && s[0] != '/' && s[|s| - 1] != '/'
    ensures Trim(s, '/') == s
  {
    assert TrimLeft(s, '/') == s;
  }
}
