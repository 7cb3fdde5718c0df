/** `replaceTpl` of the resource generator: seven replace-all passes that
    fill the placeholders of a template with the application name and the
    spellings of the package and resource names. */
module Render {
  import opened GoStrings
  import opened Templates

  datatype Option<T> = None | Some(value: T)

  /** The seven values, in the order in which their passes run. */
  datatype Values = Values(
    app_name: string,
    package_name: string, packageName: string, PackageName: string,
    resource_name: string, resourceName: string, ResourceName: string)

  /** The lower-camel spelling: the first character of the raw name followed
      by the camel-case spelling without its first character. None where the
      source indexes out of range (an empty raw name or an empty camel-case
      spelling). */
  function LowerCamel(raw: string, upper: string): (r: Option<string>)
    ensures r.None? <==> raw == [] || upper == []
    ensures r.Some? ==> (|r.value| == |upper| && r.value[0] == raw[0]
      && forall i :: 1 <= i < |upper| ==> r.value[i] == upper[i])
  {
    if raw == [] || upper == [] then None else Some([raw[0]] + upper[1..])
  }

  /** The values `replaceTpl` binds; `camel` stands for the camel-case
      conversion of the utilities package. */
  function ValuesOf(app: string, pkg: string, res: string, camel: string -> string): (r: Option<Values>)
    ensures r.None? <==> pkg == [] || res == [] || camel(pkg) == [] || camel(res) == []
    ensures r.Some? ==> (r.value.app_name == app
      && r.value.package_name == pkg && r.value.PackageName == camel(pkg)
      && r.value.resource_name == res && r.value.ResourceName == camel(res)
      && LowerCamel(pkg, camel(pkg)) == Some(r.value.packageName)
      && LowerCamel(res, camel(res)) == Some(r.value.resourceName))
  {
    match (LowerCamel(pkg, camel(pkg)), LowerCamel(res, camel(res)))
    case (Some(pl), Some(rl)) => Some(Values(app, pkg, pl, camel(pkg), res, rl, camel(res)))
    case _ => None
  }

  function Pass(s: string, name: string, v: string): string {
    TokenShapeNonEmpty(name);
    ReplaceAll(s, Token(name), v)
  }

  lemma TokenShapeNonEmpty(name: string)
    ensures |Token(name)| > 0
  {
  }

  /** The seven passes in the source's order. */
  function Apply(tpl: string, v: Values): string {
    var a := Pass(tpl, "app_name", v.app_name);
    var p := Pass(Pass(Pass(a, "package_name", v.package_name), "packageName", v.packageName),
      "PackageName", v.PackageName);
    Pass(Pass(Pass(p, "resource_name", v.resource_name), "resourceName", v.resourceName),
      "ResourceName", v.ResourceName)
  }

  /** replaceTpl: None stands for the run-time panic on an empty name. */
  function ReplaceTpl(tpl: string, app: string, pkg: string, res: string, camel: string -> string): (r: Option<string>)
    ensures r.None? <==> ValuesOf(app, pkg, res, camel).None?
    ensures r.Some? ==> r.value == Apply(tpl, ValuesOf(app, pkg, res, camel).value)
  {
    match ValuesOf(app, pkg, res, camel)
    case None => None
    case Some(v) => Some(Apply(tpl, v))
  }

  /** Every placeholder with its value. */
  function Env(v: Values): map<string, string> {
    map["app_name" := v.app_name,
        "package_name" := v.package_name, "packageName" := v.packageName,
        "PackageName" := v.PackageName,
        "resource_name" := v.resource_name, "resourceName" := v.resourceName,
        "ResourceName" := v.ResourceName]
  }

  /** The names of the seven placeholders. */
  const Placeholders: set<string> := {"app_name", "package_name", "packageName", "PackageName",
    "resource_name", "resourceName", "ResourceName"}

  predicate BraceFree(v: Values) {
    '{' !in v.app_name && '{' !in v.package_name && '{' !in v.packageName
    && '{' !in v.PackageName && '{' !in v.resource_name && '{' !in v.resourceName
    && '{' !in v.ResourceName
  }

  // ---------------------------------------------------------------------
  // Properties

  /** One pass over a well-formed template fills one placeholder and keeps
      the template well formed. */
  lemma PassStep(t: Template, n: string, x: string)
    requires WellFormed(t) && ValidName(n) && '{' !in x
    ensures Pass(Text(t), n, x) == Text(Subst(t, map[n := x]))
    ensures WellFormed(Subst(t, map[n := x]))
  {
    ReplaceSlot(t, n, x);
    SubstWellFormed(t, map[n := x]);
  }

  /** Three passes for distinct placeholders fill the three at once. */
  lemma PassThree(t: Template, n1: string, x1: string, n2: string, x2: string, n3: string, x3: string)
    requires WellFormed(t) && ValidName(n1) && ValidName(n2) && ValidName(n3)
    requires '{' !in x1 && '{' !in x2 && '{' !in x3
    requires n1 != n2 && n1 != n3 && n2 != n3
    ensures Pass(Pass(Pass(Text(t), n1, x1), n2, x2), n3, x3)
      == Text(Subst(t, map[n1 := x1, n2 := x2, n3 := x3]))
    ensures WellFormed(Subst(t, map[n1 := x1, n2 := x2, n3 := x3]))
  {
    var e1, e2, e3 := map[n1 := x1], map[n2 := x2], map[n3 := x3];
    var t1 := Subst(t, e1);
    PassStep(t, n1, x1);
    var t2 := Subst(t1, e2);
    PassStep(t1, n2, x2);
    var t3 := Subst(t2, e3);
    PassStep(t2, n3, x3);
    assert Pass(Pass(Pass(Text(t), n1, x1), n2, x2), n3, x3) == Text(t3);
    SubstTwice(t, e1, e2);
    assert t2 == Subst(t, e2 + e1);
    SubstTwice(t, e2 + e1, e3);
    assert t3 == Subst(t, e3 + (e2 + e1));
    assert e3 + (e2 + e1) == map[n1 := x1, n2 := x2, n3 := x3];
  }

  /** With brace-free values, the seven passes over a well-formed template
      fill every one of its seven placeholders with its value and leave all
      other text, other placeholders included, as it is. */
  lemma ApplyFills(t: Template, v: Values)
    requires WellFormed(t) && BraceFree(v)
    ensures Apply(Text(t), v) == Text(Subst(t, Env(v)))
  {
    var e1 := map["app_name" := v.app_name];
    var e2 := map["package_name" := v.package_name, "packageName" := v.packageName,
      "PackageName" := v.PackageName];
    var e3 := map["resource_name" := v.resource_name, "resourceName" := v.resourceName,
      "ResourceName" := v.ResourceName];
    var t1 := Subst(t, e1);
    PassStep(t, "app_name", v.app_name);
    var t2 := Subst(t1, e2);
    PassThree(t1, "package_name", v.package_name, "packageName", v.packageName,
      "PackageName", v.PackageName);
    var t3 := Subst(t2, e3);
    PassThree(t2, "resource_name", v.resource_name, "resourceName", v.resourceName,
      "ResourceName", v.ResourceName);
    assert Apply(Text(t), v) == Text(t3);
    SubstTwice(t, e1, e2);
    assert t2 == Subst(t, e2 + e1);
    SubstTwice(t, e2 + e1, e3);
    assert t3 == Subst(t, e3 + (e2 + e1));
    EnvSplit(v);
  }

  lemma EnvSplit(v: Values)
    ensures map["resource_name" := v.resource_name, "resourceName" := v.resourceName,
        "ResourceName" := v.ResourceName]
      + (map["package_name" := v.package_name, "packageName" := v.packageName,
        "PackageName" := v.PackageName] + map["app_name" := v.app_name])
      == Env(v)
  {
  }

  /** The rendering of a well-formed template, in terms of the names given
      to `replaceTpl`. */
  lemma ReplaceTplFills(t: Template, app: string, pkg: string, res: string, camel: string -> string)
    requires WellFormed(t)
    requires '{' !in app && '{' !in pkg && '{' !in res && '{' !in camel(pkg) && '{' !in camel(res)
    requires pkg != [] && res != [] && camel(pkg) != [] && camel(res) != []
    ensures ReplaceTpl(Text(t), app, pkg, res, camel).Some?
    ensures ReplaceTpl(Text(t), app, pkg, res, camel).value
      == Text(Subst(t, Env(ValuesOf(app, pkg, res, camel).value)))
  {
    var v := ValuesOf(app, pkg, res, camel).value;
    assert '{' !in v.packageName by {
      assert v.packageName == [pkg[0]] + camel(pkg)[1..];
    }
    assert '{' !in v.resourceName by {
      assert v.resourceName == [res[0]] + camel(res)[1..];
    }
    ApplyFills(t, v);
  }

  /** The passes run one after another over the text the previous pass
      produced: an application name that itself holds the package-name
      placeholder has it replaced by the package name. */
  lemma ApplyChains(v: Values)
    requires v.app_name == Token("package_name")
    requires '{' !in v.package_name && '{' !in v.packageName && '{' !in v.PackageName
    requires '{' !in v.resource_name && '{' !in v.resourceName && '{' !in v.ResourceName
    ensures Apply(Token("app_name"), v) == v.package_name
  {
    var s0 := Token("app_name");
    ReplaceAllFront([], s0, v.app_name);
    assert s0 + [] == s0 && v.app_name + [] == v.app_name;
    assert Pass(s0, "app_name", v.app_name) == v.app_name;
    var s1 := Token("package_name");
    ReplaceAllFront([], s1, v.package_name);
    assert s1 + [] == s1 && v.package_name + [] == v.package_name;
    var s := v.package_name;
    assert Pass(s1, "package_name", s) == s;
    UntouchedPass(s, "packageName", v.packageName);
    UntouchedPass(s, "PackageName", v.PackageName);
    UntouchedPass(s, "resource_name", v.resource_name);
    UntouchedPass(s, "resourceName", v.resourceName);
    UntouchedPass(s, "ResourceName", v.ResourceName);
  }

  /** A pass leaves text without '{' unchanged. */
  lemma UntouchedPass(s: string, n: string, x: string)
    requires '{' !in s
    ensures Pass(s, n, x) == s
  {
    TokenShape(n);
    forall i: nat | i <= |s| ensures !OccursAt(s, Token(n), i) {
      if i + |Token(n)| <= |s| {
        assert s[i..i + |Token(n)|][0] == s[i];
      }
    }
    ReplaceAllAbsent(s, Token(n), x);
  }

  /** Text holding none of the seven placeholders is returned unchanged. */
  lemma ApplyNoTokens(s: string, v: Values)
    requires forall n :: n in Placeholders ==> !Contains(s, Token(n))
    ensures Apply(s, v) == s
  {
    assert "app_name" in Placeholders && "package_name" in Placeholders && "packageName" in Placeholders;
    assert "PackageName" in Placeholders && "resource_name" in Placeholders;
    assert "resourceName" in Placeholders && "ResourceName" in Placeholders;
    ReplaceAllAbsent(s, Token("app_name"), v.app_name);
    ReplaceAllAbsent(s, Token("package_name"), v.package_name);
    ReplaceAllAbsent(s, Token("packageName"), v.packageName);
    ReplaceAllAbsent(s, Token("PackageName"), v.PackageName);
    ReplaceAllAbsent(s, Token("resource_name"), v.resource_name);
    ReplaceAllAbsent(s, Token("resourceName"), v.resourceName);
    ReplaceAllAbsent(s, Token("ResourceName"), v.ResourceName);
  }

  /** A placeholder `replaceTpl` does not know, such as `{{.Foo}}`, is left
      in the text. */
  lemma UnknownTokenKept(m: string, v: Values)
    requires ValidName(m) && m !in Placeholders
    ensures Apply(Token(m), v) == Token(m)
  {
    forall n | n in Placeholders ensures !Contains(Token(m), Token(n)) {
      assert ValidName(n);
      forall i: nat | i <= |Token(m)| ensures !OccursAt(Token(m), Token(n), i) {
        if i < |Token(m)| {
          TokenNoOtherToken(m, [], n, i);
          assert Token(m) + [] == Token(m);
        }
      }
    }
    ApplyNoTokens(Token(m), v);
  }

  lemma FooKept(v: Values)
    ensures Apply("{{.Foo}}", v) == "{{.Foo}}"
  {
    UnknownTokenKept("Foo", v);
  }
}
