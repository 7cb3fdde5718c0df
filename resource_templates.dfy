/** The five templates from which a resource is generated, piece by piece as
    the Go constants hold them. */
module ResourceTemplates {
  import opened Templates

  // The placeholder names the templates use.
  const package_name: Name := "package_name"
  const PackageName: Name := "PackageName"
  const app_name: Name := "app_name"
  const ResourceName: Name := "ResourceName"
  const resource_name: Name := "resource_name"
  const resourceName: Name := "resourceName"

  /** `rest` (generate/g_resource.go:28-63): the REST handler of a resource. */
  function Rest(): (t: Template)
    ensures WellFormed(t)
  {
    RestPart0() + RestPart1() + RestPart2() + RestPart3() + RestPart4() + RestPart5() + RestPart6() + RestPart7() + RestPart8() + RestPart9() + RestPart10() + RestPart11() + RestPart12()
  }

  /** Lines 0 to 4 of `Rest`, counting from 0. */
  function RestPart0(): (t: Template)
    ensures |t| == 5 && WellFormed(t)
  {
    [[Plain("package "), Slot(package_name)],
     [],
     [Plain("import (")],
     [Plain("\t\"github.com/cisordeng/" + "beego/xenon\"")],
     []]
  }

  /** Lines 5 to 7 of `Rest`, counting from 0. */
  function RestPart1(): (t: Template)
    ensures |t| == 3 && WellFormed(t)
  {
    [[Plain("\tb"), Slot(PackageName), Plain(" \""), Slot(app_name), Plain("/business/"), Slot(package_name), Plain("\"")],
     [Plain(")")],
     []]
  }

  /** Lines 8 to 11 of `Rest`, counting from 0. */
  function RestPart2(): (t: Template)
    ensures |t| == 4 && WellFormed(t)
  {
    [[Plain("type "), Slot(ResourceName), Plain(" struct "), Open],
     [Plain("\txenon.RestResource")],
     [Plain("}")],
     []]
  }

  /** Lines 12 to 15 of `Rest`, counting from 0. */
  function RestPart3(): (t: Template)
    ensures |t| == 4 && WellFormed(t)
  {
    [[Plain("func init () "), Open],
     [Plain("\txenon.RegisterResource(" + "new("), Slot(ResourceName), Plain("))")],
     [Plain("}")],
     []]
  }

  /** Line 16 of `Rest`, counting from 0. */
  function RestPart4(): (t: Template)
    ensures |t| == 1 && WellFormed(t)
  {
    [[Plain("func (this *"), Slot(ResourceName), Plain(") Resource() string "), Open]]
  }

  /** Lines 17 to 19 of `Rest`, counting from 0. */
  function RestPart5(): (t: Template)
    ensures |t| == 3 && WellFormed(t)
  {
    [[Plain("\treturn \""), Slot(package_name), Plain("."), Slot(resource_name), Plain("\"")],
     [Plain("}")],
     []]
  }

  /** Line 20 of `Rest`, counting from 0. */
  function RestPart6(): (t: Template)
    ensures |t| == 1 && WellFormed(t)
  {
    [[Plain("func (this *"), Slot(ResourceName), Plain(") Params()" + " map[string][]string "), Open]]
  }

  /** Lines 21 to 23 of `Rest`, counting from 0. */
  function RestPart7(): (t: Template)
    ensures |t| == 3 && WellFormed(t)
  {
    [[Plain("\treturn" + " map[string][]string"), Open],
     [Plain("\t\t\"GET\":  []string"), Open],
     [Plain("\t\t\t\"id\",")]]
  }

  /** Lines 24 to 28 of `Rest`, counting from 0. */
  function RestPart8(): (t: Template)
    ensures |t| == 5 && WellFormed(t)
  {
    [[Plain("\t\t},")],
     [Plain("\t}")],
     [Plain("}")],
     [],
     [Plain("func (this *"), Slot(ResourceName), Plain(") Get() "), Open]]
  }

  /** Lines 29 to 30 of `Rest`, counting from 0. */
  function RestPart9(): (t: Template)
    ensures |t| == 2 && WellFormed(t)
  {
    [[Plain("\tid, _ :=" + " this.GetInt(\"id\", 0)")],
     []]
  }

  /** Line 31 of `Rest`, counting from 0. */
  function RestPart10(): (t: Template)
    ensures |t| == 1 && WellFormed(t)
  {
    [[Plain("\t"), Slot(resourceName), Plain(" := b"), Slot(PackageName), Plain(".Get"), Slot(ResourceName), Plain("ById(id)")]]
  }

  /** Lines 32 to 33 of `Rest`, counting from 0. */
  function RestPart11(): (t: Template)
    ensures |t| == 2 && WellFormed(t)
  {
    [[Plain("\tdata := b"), Slot(PackageName), Plain(".Encode"), Slot(ResourceName), Plain("("), Slot(resourceName), Plain(")")],
     [Plain("\tthis.ReturnJSON(data)")]]
  }

  /** Line 34 of `Rest`, counting from 0. */
  function RestPart12(): (t: Template)
    ensures |t| == 1 && WellFormed(t)
  {
    [[Plain("}")]]
  }

  /** `businessEntity` (generate/g_resource.go:65-101): the business entity of a resource. */
  function BusinessEntity(): (t: Template)
    ensures WellFormed(t)
  {
    BusinessEntityPart0() + BusinessEntityPart1() + BusinessEntityPart2() + BusinessEntityPart3() + BusinessEntityPart4() + BusinessEntityPart5() + BusinessEntityPart6() + BusinessEntityPart7() + BusinessEntityPart8() + BusinessEntityPart9() + BusinessEntityPart10() + BusinessEntityPart11()
  }

  /** Lines 0 to 4 of `BusinessEntity`, counting from 0. */
  function BusinessEntityPart0(): (t: Template)
    ensures |t| == 5 && WellFormed(t)
  {
    [[Plain("package "), Slot(package_name)],
     [],
     [Plain("import (")],
     [Plain("\t\"time\"")],
     []]
  }

  /** Lines 5 to 7 of `BusinessEntity`, counting from 0. */
  function BusinessEntityPart1(): (t: Template)
    ensures |t| == 3 && WellFormed(t)
  {
    [[Plain("\t\"github.com/cisordeng/" + "beego/orm\"")],
     [Plain("\t\"github.com/cisordeng/" + "beego/xenon\"")],
     []]
  }

  /** Lines 8 to 10 of `BusinessEntity`, counting from 0. */
  function BusinessEntityPart2(): (t: Template)
    ensures |t| == 3 && WellFormed(t)
  {
    [[Plain("\tm"), Slot(PackageName), Plain(" \""), Slot(app_name), Plain("/model/"), Slot(package_name), Plain("\"")],
     [Plain(")")],
     []]
  }

  /** Lines 11 to 15 of `BusinessEntity`, counting from 0. */
  function BusinessEntityPart3(): (t: Template)
    ensures |t| == 5 && WellFormed(t)
  {
    [[Plain("type "), Slot(ResourceName), Plain(" struct "), Open],
     [Plain("\tId int")],
     [Plain("\tCreatedAt time.Time")],
     [Plain("}")],
     []]
  }

  /** Lines 16 to 18 of `BusinessEntity`, counting from 0. */
  function BusinessEntityPart4(): (t: Template)
    ensures |t| == 3 && WellFormed(t)
  {
    [[Plain("func init() "), Open],
     [Plain("}")],
     []]
  }

  /** Line 19 of `BusinessEntity`, counting from 0. */
  function BusinessEntityPart5(): (t: Template)
    ensures |t| == 1 && WellFormed(t)
  {
    [[Plain("func Init"), Slot(ResourceName), Plain("FromModel(model *m"), Slot(ResourceName), Plain("."), Slot(ResourceName), Plain(") *"), Slot(ResourceName), Plain(" "), Open]]
  }

  /** Lines 20 to 22 of `BusinessEntity`, counting from 0. */
  function BusinessEntityPart6(): (t: Template)
    ensures |t| == 3 && WellFormed(t)
  {
    [[Plain("\tinstance := new("), Slot(ResourceName), Plain(")")],
     [Plain("\tinstance.Id = model.Id")],
     [Plain("\t")]]
  }

  /** Lines 23 to 27 of `BusinessEntity`, counting from 0. */
  function BusinessEntityPart7(): (t: Template)
    ensures |t| == 5 && WellFormed(t)
  {
    [[Plain("\tinstance.CreatedAt =" + " model.CreatedAt")],
     [],
     [Plain("\treturn instance")],
     [Plain("}")],
     []]
  }

  /** Line 28 of `BusinessEntity`, counting from 0. */
  function BusinessEntityPart8(): (t: Template)
    ensures |t| == 1 && WellFormed(t)
  {
    [[Plain("func New"), Slot(ResourceName), Plain("() ("), Slot(resourceName), Plain(" *"), Slot(ResourceName), Plain(") "), Open]]
  }

  /** Lines 29 to 31 of `BusinessEntity`, counting from 0. */
  function BusinessEntityPart9(): (t: Template)
    ensures |t| == 3 && WellFormed(t)
  {
    [[Plain("\tmodel := m"), Slot(ResourceName), Plain("."), Slot(ResourceName), Open],
     [Plain("\t\t")],
     [Plain("\t}")]]
  }

  /** Lines 32 to 33 of `BusinessEntity`, counting from 0. */
  function BusinessEntityPart10(): (t: Template)
    ensures |t| == 2 && WellFormed(t)
  {
    [[Plain("\t_, err :=" + " orm.NewOrm().Insert(&" + "model)")],
     [Plain("\txenon.PanicNotNilError(" + "err)")]]
  }

  /** Lines 34 to 35 of `BusinessEntity`, counting from 0. */
  function BusinessEntityPart11(): (t: Template)
    ensures |t| == 2 && WellFormed(t)
  {
    [[Plain("\treturn Init"), Slot(ResourceName), Plain("FromModel(&model)")],
     [Plain("}")]]
  }

  /** `businessRepository` (generate/g_resource.go:103-154): the repository functions of a resource. */
  function BusinessRepository(): (t: Template)
    ensures WellFormed(t)
  {
    BusinessRepositoryPart0() + BusinessRepositoryPart1() + BusinessRepositoryPart2() + BusinessRepositoryPart3() + BusinessRepositoryPart4() + BusinessRepositoryPart5() + BusinessRepositoryPart6() + BusinessRepositoryPart7() + BusinessRepositoryPart8() + BusinessRepositoryPart9() + BusinessRepositoryPart10() + BusinessRepositoryPart11() + BusinessRepositoryPart12() + BusinessRepositoryPart13() + BusinessRepositoryPart14() + BusinessRepositoryPart15() + BusinessRepositoryPart16() + BusinessRepositoryPart17() + BusinessRepositoryPart18() + BusinessRepositoryPart19()
  }

  /** Lines 0 to 3 of `BusinessRepository`, counting from 0. */
  function BusinessRepositoryPart0(): (t: Template)
    ensures |t| == 4 && WellFormed(t)
  {
    [[Plain("package "), Slot(package_name)],
     [],
     [Plain("import (")],
     [Plain("\t\"github.com/cisordeng/" + "beego/orm\"")]]
  }

  /** Lines 4 to 5 of `BusinessRepository`, counting from 0. */
  function BusinessRepositoryPart1(): (t: Template)
    ensures |t| == 2 && WellFormed(t)
  {
    [[Plain("\t\"github.com/cisordeng/" + "beego/xenon\"")],
     []]
  }

  /** Lines 6 to 8 of `BusinessRepository`, counting from 0: the same lines as `BusinessEntityPart2`. */
  function BusinessRepositoryPart2(): (t: Template)
    ensures |t| == 3 && WellFormed(t)
  {
    BusinessEntityPart2()
  }

  /** Lines 9 to 10 of `BusinessRepository`, counting from 0. */
  function BusinessRepositoryPart3(): (t: Template)
    ensures |t| == 2 && WellFormed(t)
  {
    [[Plain("func GetOne"), Slot(ResourceName), Plain("(filters xenon.Map) *"), Slot(ResourceName), Plain(" "), Open],
     [Plain("\to := orm.NewOrm()")]]
  }

  /** Lines 11 to 12 of `BusinessRepository`, counting from 0. */
  function BusinessRepositoryPart4(): (t: Template)
    ensures |t| == 2 && WellFormed(t)
  {
    [[Plain("\tqs := o.QueryTable(&m"), Slot(PackageName), Plain("."), Slot(ResourceName), Open, Plain("})")],
     []]
  }

  /** Lines 13 to 14 of `BusinessRepository`, counting from 0. */
  function BusinessRepositoryPart5(): (t: Template)
    ensures |t| == 2 && WellFormed(t)
  {
    [[Plain("\tvar model m"), Slot(PackageName), Plain("."), Slot(ResourceName)],
     [Plain("\tif len(filters) > 0 "), Open]]
  }

  /** Lines 15 to 18 of `BusinessRepository`, counting from 0. */
  function BusinessRepositoryPart6(): (t: Template)
    ensures |t| == 4 && WellFormed(t)
  {
    [[Plain("\t\tqs =" + " qs.Filter(filters)")],
     [Plain("\t}")],
     [],
     [Plain("\terr := qs.One(&model)")]]
  }

  /** Line 19 of `BusinessRepository`, counting from 0. */
  function BusinessRepositoryPart7(): (t: Template)
    ensures |t| == 1 && WellFormed(t)
  {
    [[Plain("\txenon.PanicNotNilError(" + "err, \"raise:"), Slot(resource_name), Plain(":not_exits\", \""), Slot(resource_name), Plain("\U{4E0D}\U{5B58}\U{5728}\")")]]
  }

  /** Lines 20 to 22 of `BusinessRepository`, counting from 0. */
  function BusinessRepositoryPart8(): (t: Template)
    ensures |t| == 3 && WellFormed(t)
  {
    [[Plain("\treturn Init"), Slot(ResourceName), Plain("FromModel(&model)")],
     [Plain("}")],
     []]
  }

  /** Line 23 of `BusinessRepository`, counting from 0. */
  function BusinessRepositoryPart9(): (t: Template)
    ensures |t| == 1 && WellFormed(t)
  {
    [[Plain("func Get"), Slot(ResourceName), Plain("s(filters xenon.Map," + " orderExprs ...string )" + " []*"), Slot(ResourceName), Plain(" "), Open]]
  }

  /** Lines 24 to 26 of `BusinessRepository`, counting from 0. */
  function BusinessRepositoryPart10(): (t: Template)
    ensures |t| == 3 && WellFormed(t)
  {
    [[Plain("\to := orm.NewOrm()")],
     [Plain("\tqs := o.QueryTable(&m"), Slot(PackageName), Plain("."), Slot(ResourceName), Open, Plain("})")],
     []]
  }

  /** Lines 27 to 28 of `BusinessRepository`, counting from 0. */
  function BusinessRepositoryPart11(): (t: Template)
    ensures |t| == 2 && WellFormed(t)
  {
    [[Plain("\tvar models []*m"), Slot(PackageName), Plain("."), Slot(ResourceName)],
     [Plain("\tif len(filters) > 0 "), Open]]
  }

  /** Lines 29 to 31 of `BusinessRepository`, counting from 0. */
  function BusinessRepositoryPart12(): (t: Template)
    ensures |t| == 3 && WellFormed(t)
  {
    [[Plain("\t\tqs =" + " qs.Filter(filters)")],
     [Plain("\t}")],
     [Plain("\tif len(orderExprs) > 0 "), Open]]
  }

  /** Lines 32 to 35 of `BusinessRepository`, counting from 0. */
  function BusinessRepositoryPart13(): (t: Template)
    ensures |t| == 4 && WellFormed(t)
  {
    [[Plain("\t\tqs =" + " qs.OrderBy(orderExprs.." + ".)")],
     [Plain("\t}")],
     [],
     [Plain("\t_, err :=" + " qs.All(&models)")]]
  }

  /** Lines 36 to 39 of `BusinessRepository`, counting from 0. */
  function BusinessRepositoryPart14(): (t: Template)
    ensures |t| == 4 && WellFormed(t)
  {
    [[Plain("\txenon.PanicNotNilError(" + "err)")],
     [],
     [],
     [Plain("\t"), Slot(resourceName), Plain("s := make([]*"), Slot(ResourceName), Plain(", 0)")]]
  }

  /** Line 40 of `BusinessRepository`, counting from 0. */
  function BusinessRepositoryPart15(): (t: Template)
    ensures |t| == 1 && WellFormed(t)
  {
    [[Plain("\tfor _, model := range" + " models "), Open]]
  }

  /** Lines 41 to 42 of `BusinessRepository`, counting from 0. */
  function BusinessRepositoryPart16(): (t: Template)
    ensures |t| == 2 && WellFormed(t)
  {
    [[Plain("\t\t"), Slot(resourceName), Plain("s = append("), Slot(resourceName), Plain("s, Init"), Slot(ResourceName), Plain("FromModel(model))")],
     [Plain("\t}")]]
  }

  /** Lines 43 to 45 of `BusinessRepository`, counting from 0. */
  function BusinessRepositoryPart17(): (t: Template)
    ensures |t| == 3 && WellFormed(t)
  {
    [[Plain("\treturn "), Slot(resourceName), Plain("s")],
     [Plain("}")],
     []]
  }

  /** Line 46 of `BusinessRepository`, counting from 0. */
  function BusinessRepositoryPart18(): (t: Template)
    ensures |t| == 1 && WellFormed(t)
  {
    [[Plain("func Get"), Slot(ResourceName), Plain("ById(id int) *"), Slot(ResourceName), Plain(" "), Open]]
  }

  /** Lines 47 to 50 of `BusinessRepository`, counting from 0. */
  function BusinessRepositoryPart19(): (t: Template)
    ensures |t| == 4 && WellFormed(t)
  {
    [[Plain("\treturn GetOne"), Slot(ResourceName), Plain("(xenon.Map"), Open],
     [Plain("\t\t\"id\": id,")],
     [Plain("\t})")],
     [Plain("}")]]
  }

  /** `businessEncode` (generate/g_resource.go:156-182): the encoder of a resource. */
  function BusinessEncode(): (t: Template)
    ensures WellFormed(t)
  {
    BusinessEncodePart0() + BusinessEncodePart1() + BusinessEncodePart2() + BusinessEncodePart3() + BusinessEncodePart4() + BusinessEncodePart5() + BusinessEncodePart6() + BusinessEncodePart7() + BusinessEncodePart8() + BusinessEncodePart9() + BusinessEncodePart10()
  }

  /** Lines 0 to 4 of `BusinessEncode`, counting from 0. */
  function BusinessEncodePart0(): (t: Template)
    ensures |t| == 5 && WellFormed(t)
  {
    [[Plain("package "), Slot(package_name)],
     [Plain("import (")],
     [Plain("\t\"github.com/cisordeng/" + "beego/xenon\"")],
     [Plain(")")],
     []]
  }

  /** Line 5 of `BusinessEncode`, counting from 0. */
  function BusinessEncodePart1(): (t: Template)
    ensures |t| == 1 && WellFormed(t)
  {
    [[Plain("func Encode"), Slot(ResourceName), Plain("("), Slot(resourceName), Plain(" *"), Slot(ResourceName), Plain(") xenon.Map "), Open]]
  }

  /** Lines 6 to 9 of `BusinessEncode`, counting from 0. */
  function BusinessEncodePart2(): (t: Template)
    ensures |t| == 4 && WellFormed(t)
  {
    [[Plain("\tif "), Slot(resourceName), Plain(" == nil "), Open],
     [Plain("\t\treturn nil")],
     [Plain("\t}")],
     []]
  }

  /** Lines 10 to 12 of `BusinessEncode`, counting from 0. */
  function BusinessEncodePart3(): (t: Template)
    ensures |t| == 3 && WellFormed(t)
  {
    [[Plain("\tmap"), Slot(ResourceName), Plain(" := xenon.Map"), Open],
     [Plain("\t\t\"id\": "), Slot(resourceName), Plain(".Id,")],
     [Plain("\t\t")]]
  }

  /** Lines 13 to 14 of `BusinessEncode`, counting from 0. */
  function BusinessEncodePart4(): (t: Template)
    ensures |t| == 2 && WellFormed(t)
  {
    [[Plain("\t\t\"created_at\": "), Slot(resourceName), Plain(".CreatedAt.Format(\"2006-" + "01-02 15:04:05\"),")],
     [Plain("\t}")]]
  }

  /** Lines 15 to 18 of `BusinessEncode`, counting from 0. */
  function BusinessEncodePart5(): (t: Template)
    ensures |t| == 4 && WellFormed(t)
  {
    [[Plain("\treturn map"), Slot(ResourceName)],
     [Plain("}")],
     [],
     []]
  }

  /** Line 19 of `BusinessEncode`, counting from 0. */
  function BusinessEncodePart6(): (t: Template)
    ensures |t| == 1 && WellFormed(t)
  {
    [[Plain("func EncodeMany"), Slot(ResourceName), Plain("("), Slot(resourceName), Plain("s []*"), Slot(ResourceName), Plain(") []xenon.Map "), Open]]
  }

  /** Line 20 of `BusinessEncode`, counting from 0. */
  function BusinessEncodePart7(): (t: Template)
    ensures |t| == 1 && WellFormed(t)
  {
    [[Plain("\tmap"), Slot(ResourceName), Plain("s := make([]xenon.Map," + " 0)")]]
  }

  /** Line 21 of `BusinessEncode`, counting from 0. */
  function BusinessEncodePart8(): (t: Template)
    ensures |t| == 1 && WellFormed(t)
  {
    [[Plain("\tfor _, "), Slot(resourceName), Plain(" := range "), Slot(resourceName), Plain("s "), Open]]
  }

  /** Lines 22 to 23 of `BusinessEncode`, counting from 0. */
  function BusinessEncodePart9(): (t: Template)
    ensures |t| == 2 && WellFormed(t)
  {
    [[Plain("\t\tmap"), Slot(ResourceName), Plain("s = append(map"), Slot(ResourceName), Plain("s, Encode"), Slot(ResourceName), Plain("("), Slot(resourceName), Plain("))")],
     [Plain("\t}")]]
  }

  /** Lines 24 to 25 of `BusinessEncode`, counting from 0. */
  function BusinessEncodePart10(): (t: Template)
    ensures |t| == 2 && WellFormed(t)
  {
    [[Plain("\treturn map"), Slot(ResourceName), Plain("s")],
     [Plain("}")]]
  }

  /** `model` (generate/g_resource.go:184-205): the ORM model of a resource. */
  function Model(): (t: Template)
    ensures WellFormed(t)
  {
    ModelPart0() + ModelPart1() + ModelPart2() + ModelPart3() + ModelPart4()
  }

  /** Lines 0 to 4 of `Model`, counting from 0. */
  function ModelPart0(): (t: Template)
    ensures |t| == 5 && WellFormed(t)
  {
    [[Plain("package "), Slot(package_name)],
     [],
     [Plain("import (")],
     [Plain("\t\"time\"")],
     [Plain("\t")]]
  }

  /** Lines 5 to 8 of `Model`, counting from 0. */
  function ModelPart1(): (t: Template)
    ensures |t| == 4 && WellFormed(t)
  {
    [[Plain("\t\"github.com/cisordeng/" + "beego/orm\"")],
     [Plain(")")],
     [],
     [Plain("type "), Slot(ResourceName), Plain(" struct "), Open]]
  }

  /** Lines 9 to 13 of `Model`, counting from 0. */
  function ModelPart2(): (t: Template)
    ensures |t| == 5 && WellFormed(t)
  {
    [[Plain("\tId int")],
     [Plain("\t")],
     [Plain("\tCreatedAt time.Time" + " `orm:\"auto_now_add;" + "type(datetime)\"`")],
     [Plain("}")],
     []]
  }

  /** Lines 14 to 15 of `Model`, counting from 0. */
  function ModelPart3(): (t: Template)
    ensures |t| == 2 && WellFormed(t)
  {
    [[Plain("func (o *"), Slot(ResourceName), Plain(") TableName() string "), Open],
     [Plain("\treturn \""), Slot(package_name), Plain("_"), Slot(resource_name), Plain("\"")]]
  }

  /** Lines 16 to 20 of `Model`, counting from 0. */
  function ModelPart4(): (t: Template)
    ensures |t| == 5 && WellFormed(t)
  {
    [[Plain("}")],
     [],
     [Plain("func init() "), Open],
     [Plain("\torm.RegisterModel(new("), Slot(ResourceName), Plain("))")],
     [Plain("}")]]
  }
}
