/** The templates from which an API application is generated, piece by
    piece as the Go constants hold them. */
module ApiTemplates {
  import opened Templates

  // The placeholder names the templates use.
  const Appname: Name := "Appname"

  /** `gitIgnore` (cmd/commands/api/apiapp.go:69-72): the `.gitignore` file. */
  function GitIgnore(): (t: Template)
    ensures WellFormed(t)
  {
    GitIgnorePart0()
  }

  /** Lines 0 to 2 of `GitIgnore`, counting from 0. */
  function GitIgnorePart0(): (t: Template)
    ensures |t| == 3 && WellFormed(t)
  {
    [[Plain(".idea/")],
     [Plain("*.tmp")],
     [Slot(Appname)]]
  }

  /** `apiConf` (cmd/commands/api/apiapp.go:73-94): the configuration file `conf/app.conf`. */
  function Conf(): (t: Template)
    ensures WellFormed(t)
  {
    ConfPart0() + ConfPart1() + ConfPart2() + ConfPart3() + ConfPart4() + ConfPart5() + ConfPart6()
  }

  /** Lines 0 to 3 of `Conf`, counting from 0. */
  function ConfPart0(): (t: Template)
    ensures |t| == 4 && WellFormed(t)
  {
    [[Plain("appname = "), Slot(Appname)],
     [Plain("httpport = 8080")],
     [Plain("runmode = dev")],
     [Plain("autorender = false")]]
  }

  /** Lines 4 to 8 of `Conf`, counting from 0. */
  function ConfPart1(): (t: Template)
    ensures |t| == 5 && WellFormed(t)
  {
    [[Plain("copyrequestbody = true")],
     [Plain("EnableDocs = true")],
     [],
     [Plain("[db]")],
     [Plain("DB_HOST = localhost")]]
  }

  /** Lines 9 to 11 of `Conf`, counting from 0. */
  function ConfPart2(): (t: Template)
    ensures |t| == 3 && WellFormed(t)
  {
    [[Plain("DB_PORT = 3306")],
     [Plain("DB_NAME = "), Slot(Appname)],
     [Plain("DB_USER = "), Slot(Appname)]]
  }

  /** Lines 12 to 15 of `Conf`, counting from 0. */
  function ConfPart3(): (t: Template)
    ensures |t| == 4 && WellFormed(t)
  {
    [[Plain("DB_PASSWORD = s:66668888")],
     [Plain("DB_CHARSET = utf8")],
     [],
     [Plain("[api]")]]
  }

  /** Lines 16 to 17 of `Conf`, counting from 0. */
  function ConfPart4(): (t: Template)
    ensures |t| == 2 && WellFormed(t)
  {
    [[Plain("apiUrl =" + " http://localhost")],
     [Plain("enableSign = true")]]
  }

  /** Lines 18 to 19 of `Conf`, counting from 0. */
  function ConfPart5(): (t: Template)
    ensures |t| == 2 && WellFormed(t)
  {
    [[Plain("signSecret =" + " 7d736a2822f8c005a8f034b" + "477b23f27")],
     [Plain("signEffectiveSeconds =" + " 15")]]
  }

  /** Line 20 of `Conf`, counting from 0. */
  function ConfPart6(): (t: Template)
    ensures |t| == 1 && WellFormed(t)
  {
    [[Plain("aesCommonKey =" + " 7d736a2822f8c005a8f034b" + "477b23f27")]]
  }

  /** `apiMain` (cmd/commands/api/apiapp.go:95-107): the `main.go` file. */
  function Main(): (t: Template)
    ensures WellFormed(t)
  {
    MainPart0() + MainPart1() + MainPart2()
  }

  /** Lines 0 to 4 of `Main`, counting from 0. */
  function MainPart0(): (t: Template)
    ensures |t| == 5 && WellFormed(t)
  {
    [[Plain("package main")],
     [],
     [Plain("import (")],
     [Plain("\t\"github.com/cisordeng/" + "beego/xenon\"")],
     []]
  }

  /** Lines 5 to 8 of `Main`, counting from 0. */
  function MainPart1(): (t: Template)
    ensures |t| == 4 && WellFormed(t)
  {
    [[Plain("\t_ \""), Slot(Appname), Plain("/model\"")],
     [Plain("\t_ \""), Slot(Appname), Plain("/rest\"")],
     [Plain(")")],
     []]
  }

  /** Lines 9 to 11 of `Main`, counting from 0. */
  function MainPart2(): (t: Template)
    ensures |t| == 3 && WellFormed(t)
  {
    [[Plain("func main() "), Open],
     [Plain("\txenon.Run()")],
     [Plain("}")]]
  }

  /** `apiRest` (cmd/commands/api/apiapp.go:109-148): the example REST resource `rest/account/user.go`. */
  function Rest(): (t: Template)
    ensures WellFormed(t)
  {
    RestPart0() + RestPart1() + RestPart2() + RestPart3() + RestPart4() + RestPart5() + RestPart6() + RestPart7() + RestPart8() + RestPart9() + RestPart10()
  }

  /** Lines 0 to 4 of `Rest`, counting from 0. */
  function RestPart0(): (t: Template)
    ensures |t| == 5 && WellFormed(t)
  {
    [[Plain("package account")],
     [],
     [Plain("import (")],
     [Plain("\t\"github.com/cisordeng/" + "beego/xenon\"")],
     []]
  }

  /** Lines 5 to 8 of `Rest`, counting from 0. */
  function RestPart1(): (t: Template)
    ensures |t| == 4 && WellFormed(t)
  {
    [[Plain("\tbUser \""), Slot(Appname), Plain("/business/account\"")],
     [Plain(")")],
     [],
     [Plain("type User struct "), Open]]
  }

  /** Lines 9 to 12 of `Rest`, counting from 0. */
  function RestPart2(): (t: Template)
    ensures |t| == 4 && WellFormed(t)
  {
    [[Plain("\txenon.RestResource")],
     [Plain("}")],
     [],
     [Plain("func init () "), Open]]
  }

  /** Lines 13 to 15 of `Rest`, counting from 0. */
  function RestPart3(): (t: Template)
    ensures |t| == 3 && WellFormed(t)
  {
    [[Plain("\txenon.RegisterResource(" + "new(User))")],
     [Plain("}")],
     []]
  }

  /** Lines 16 to 19 of `Rest`, counting from 0. */
  function RestPart4(): (t: Template)
    ensures |t| == 4 && WellFormed(t)
  {
    [[Plain("func (this *User)" + " Resource() string "), Open],
     [Plain("\treturn \"account.user\"")],
     [Plain("}")],
     []]
  }

  /** Lines 20 to 21 of `Rest`, counting from 0. */
  function RestPart5(): (t: Template)
    ensures |t| == 2 && WellFormed(t)
  {
    [[Plain("func (this *User)" + " Params()" + " map[string][]string "), Open],
     [Plain("\treturn" + " map[string][]string"), Open]]
  }

  /** Lines 22 to 25 of `Rest`, counting from 0. */
  function RestPart6(): (t: Template)
    ensures |t| == 4 && WellFormed(t)
  {
    [[Plain("\t\t\"PUT\": []string"), Open],
     [Plain("\t\t\t\"name\",")],
     [Plain("\t\t\t\"password\",")],
     [Plain("\t\t\t\"avatar\",")]]
  }

  /** Lines 26 to 30 of `Rest`, counting from 0. */
  function RestPart7(): (t: Template)
    ensures |t| == 5 && WellFormed(t)
  {
    [[Plain("\t\t},")],
     [Plain("\t}")],
     [Plain("}")],
     [],
     [Plain("func (this *User) Put() "), Open]]
  }

  /** Lines 31 to 32 of `Rest`, counting from 0. */
  function RestPart8(): (t: Template)
    ensures |t| == 2 && WellFormed(t)
  {
    [[Plain("\tname :=" + " this.GetString(\"name\"," + " \"\")")],
     [Plain("\tpassword :=" + " this.GetString(\"" + "password\", \"\")")]]
  }

  /** Lines 33 to 35 of `Rest`, counting from 0. */
  function RestPart9(): (t: Template)
    ensures |t| == 3 && WellFormed(t)
  {
    [[Plain("\tavatar :=" + " this.GetString(\"avatar\"" + ", \"\")")],
     [],
     [Plain("\tuser :=" + " bUser.NewUser(name," + " password, avatar)")]]
  }

  /** Lines 36 to 38 of `Rest`, counting from 0. */
  function RestPart10(): (t: Template)
    ensures |t| == 3 && WellFormed(t)
  {
    [[Plain("\tdata :=" + " bUser.EncodeUser(user)")],
     [Plain("\tthis.ReturnJSON(data)")],
     [Plain("}")]]
  }

  /** `apiRestLogin` (cmd/commands/api/apiapp.go:150-192): the login resource `rest/account/login_user.go`. */
  function RestLogin(): (t: Template)
    ensures WellFormed(t)
  {
    RestLoginPart0() + RestLoginPart1() + RestLoginPart2() + RestLoginPart3() + RestLoginPart4() + RestLoginPart5() + RestLoginPart6() + RestLoginPart7() + RestLoginPart8() + RestLoginPart9() + RestLoginPart10() + RestLoginPart11() + RestLoginPart12() + RestLoginPart13() + RestLoginPart14()
  }

  /** Lines 0 to 4 of `RestLogin`, counting from 0: the same lines as `RestPart0`. */
  function RestLoginPart0(): (t: Template)
    ensures |t| == 5 && WellFormed(t)
  {
    RestPart0()
  }

  /** Lines 5 to 8 of `RestLogin`, counting from 0. */
  function RestLoginPart1(): (t: Template)
    ensures |t| == 4 && WellFormed(t)
  {
    [[Plain("\tbUser \""), Slot(Appname), Plain("/business/account\"")],
     [Plain(")")],
     [],
     [Plain("type LoginUser struct "), Open]]
  }

  /** Lines 9 to 12 of `RestLogin`, counting from 0: the same lines as `RestPart2`. */
  function RestLoginPart2(): (t: Template)
    ensures |t| == 4 && WellFormed(t)
  {
    RestPart2()
  }

  /** Lines 13 to 15 of `RestLogin`, counting from 0. */
  function RestLoginPart3(): (t: Template)
    ensures |t| == 3 && WellFormed(t)
  {
    [[Plain("\txenon.RegisterResource(" + "new(LoginUser))")],
     [Plain("}")],
     []]
  }

  /** Lines 16 to 18 of `RestLogin`, counting from 0. */
  function RestLoginPart4(): (t: Template)
    ensures |t| == 3 && WellFormed(t)
  {
    [[Plain("func (this *LoginUser)" + " Resource() string "), Open],
     [Plain("\treturn" + " \"account.login_user\"")],
     [Plain("}")]]
  }

  /** Lines 19 to 20 of `RestLogin`, counting from 0. */
  function RestLoginPart5(): (t: Template)
    ensures |t| == 2 && WellFormed(t)
  {
    [[],
     [Plain("func (this *LoginUser)" + " Params()" + " map[string][]string "), Open]]
  }

  /** Lines 21 to 23 of `RestLogin`, counting from 0. */
  function RestLoginPart6(): (t: Template)
    ensures |t| == 3 && WellFormed(t)
  {
    [[Plain("\treturn" + " map[string][]string"), Open],
     [Plain("\t\t\"PUT\": []string"), Open],
     [Plain("\t\t\t\"name\",")]]
  }

  /** Lines 24 to 28 of `RestLogin`, counting from 0. */
  function RestLoginPart7(): (t: Template)
    ensures |t| == 5 && WellFormed(t)
  {
    [[Plain("\t\t\t\"password\",")],
     [Plain("\t\t},")],
     [Plain("\t}")],
     [Plain("}")],
     []]
  }

  /** Lines 29 to 30 of `RestLogin`, counting from 0. */
  function RestLoginPart8(): (t: Template)
    ensures |t| == 2 && WellFormed(t)
  {
    [[Plain("func (this *LoginUser)" + " Put() "), Open],
     [Plain("\tname :=" + " this.GetString(\"name\"," + " \"\")")]]
  }

  /** Lines 31 to 32 of `RestLogin`, counting from 0. */
  function RestLoginPart9(): (t: Template)
    ensures |t| == 2 && WellFormed(t)
  {
    [[Plain("\tpassword :=" + " this.GetString(\"" + "password\", \"\")")],
     [Plain("\tsid :=" + " bUser.AuthUser(name," + " password)")]]
  }

  /** Lines 33 to 34 of `RestLogin`, counting from 0. */
  function RestLoginPart10(): (t: Template)
    ensures |t| == 2 && WellFormed(t)
  {
    [[Plain("\tif sid != \"\" "), Open],
     [Plain("\t\tuser :=" + " bUser.GetUserByName(" + "name)")]]
  }

  /** Lines 35 to 37 of `RestLogin`, counting from 0. */
  function RestLoginPart11(): (t: Template)
    ensures |t| == 3 && WellFormed(t)
  {
    [[Plain("\t\tdata :=" + " bUser.EncodeUser(user)")],
     [Plain("\t\tdata[\"sid\"] = sid")],
     [Plain("\t\tthis.ReturnJSON(data)")]]
  }

  /** Line 38 of `RestLogin`, counting from 0. */
  function RestLoginPart12(): (t: Template)
    ensures |t| == 1 && WellFormed(t)
  {
    [[Plain("\t} else "), Open]]
  }

  /** Line 39 of `RestLogin`, counting from 0. */
  function RestLoginPart13(): (t: Template)
    ensures |t| == 1 && WellFormed(t)
  {
    [[Plain("\t\txenon.RaiseException(\"" + "rest:name or password is" + " wrong\", \"\U{7528}\U{6237}\U{540D}\U{6216}\U{5BC6}\U{7801}\U{9519}\U{8BEF}\")")]]
  }

  /** Lines 40 to 41 of `RestLogin`, counting from 0. */
  function RestLoginPart14(): (t: Template)
    ensures |t| == 2 && WellFormed(t)
  {
    [[Plain("\t}")],
     [Plain("}")]]
  }

  /** `apiRestInit` (cmd/commands/api/apiapp.go:194-202): `rest/init.go`. */
  function RestInit(): (t: Template)
    ensures WellFormed(t)
  {
    RestInitPart0() + RestInitPart1()
  }

  /** Lines 0 to 5 of `RestInit`, counting from 0. */
  function RestInitPart0(): (t: Template)
    ensures |t| == 6 && WellFormed(t)
  {
    [[Plain("package rest")],
     [],
     [Plain("import (")],
     [Plain("\t_ \""), Slot(Appname), Plain("/rest/account\"")],
     [Plain(")")],
     []]
  }

  /** Lines 6 to 7 of `RestInit`, counting from 0. */
  function RestInitPart1(): (t: Template)
    ensures |t| == 2 && WellFormed(t)
  {
    [[Plain("func init() "), Open],
     [Plain("}")]]
  }

  /** `apiModel` (cmd/commands/api/apiapp.go:204-227): the example model `model/account/user.go`. */
  function Model(): (t: Template)
    ensures WellFormed(t)
  {
    ModelPart0() + ModelPart1() + ModelPart2() + ModelPart3() + ModelPart4() + ModelPart5()
  }

  /** Lines 0 to 4 of `Model`, counting from 0. */
  function ModelPart0(): (t: Template)
    ensures |t| == 5 && WellFormed(t)
  {
    [[Plain("package account")],
     [],
     [Plain("import (")],
     [Plain("\t\"time\"")],
     []]
  }

  /** Lines 5 to 9 of `Model`, counting from 0. */
  function ModelPart1(): (t: Template)
    ensures |t| == 5 && WellFormed(t)
  {
    [[Plain("\t\"github.com/cisordeng/" + "beego/orm\"")],
     [Plain(")")],
     [],
     [Plain("type User struct "), Open],
     [Plain("\tId int")]]
  }

  /** Lines 10 to 12 of `Model`, counting from 0. */
  function ModelPart2(): (t: Template)
    ensures |t| == 3 && WellFormed(t)
  {
    [[Plain("\tName string")],
     [Plain("\tPassword string")],
     [Plain("\tAvatar string")]]
  }

  /** Lines 13 to 15 of `Model`, counting from 0. */
  function ModelPart3(): (t: Template)
    ensures |t| == 3 && WellFormed(t)
  {
    [[Plain("\tCreatedAt time.Time" + " `orm:\"auto_now_add;" + "type(datetime)\"`")],
     [Plain("}")],
     []]
  }

  /** Lines 16 to 19 of `Model`, counting from 0. */
  function ModelPart4(): (t: Template)
    ensures |t| == 4 && WellFormed(t)
  {
    [[Plain("func (o *User)" + " TableName() string "), Open],
     [Plain("\treturn \"account_user\"")],
     [Plain("}")],
     []]
  }

  /** Lines 20 to 22 of `Model`, counting from 0. */
  function ModelPart5(): (t: Template)
    ensures |t| == 3 && WellFormed(t)
  {
    [[Plain("func init() "), Open],
     [Plain("\torm.RegisterModel(new(" + "User))")],
     [Plain("}")]]
  }

  /** `apiModelInit` (cmd/commands/api/apiapp.go:229-237): `model/init.go`. */
  function ModelInit(): (t: Template)
    ensures WellFormed(t)
  {
    ModelInitPart0() + ModelInitPart1()
  }

  /** Lines 0 to 5 of `ModelInit`, counting from 0. */
  function ModelInitPart0(): (t: Template)
    ensures |t| == 6 && WellFormed(t)
  {
    [[Plain("package model")],
     [],
     [Plain("import (")],
     [Plain("\t_ \""), Slot(Appname), Plain("/model/account\"")],
     [Plain(")")],
     []]
  }

  /** Lines 6 to 7 of `ModelInit`, counting from 0: the same lines as `RestInitPart1`. */
  function ModelInitPart1(): (t: Template)
    ensures |t| == 2 && WellFormed(t)
  {
    RestInitPart1()
  }

  /** `apiBusiness` (cmd/commands/api/apiapp.go:239-283): the example business entity `business/account/user.go`. */
  function Business(): (t: Template)
    ensures WellFormed(t)
  {
    BusinessPart0() + BusinessPart1() + BusinessPart2() + BusinessPart3() + BusinessPart4() + BusinessPart5() + BusinessPart6() + BusinessPart7() + BusinessPart8() + BusinessPart9() + BusinessPart10() + BusinessPart11() + BusinessPart12()
  }

  /** Lines 0 to 4 of `Business`, counting from 0: the same lines as `ModelPart0`. */
  function BusinessPart0(): (t: Template)
    ensures |t| == 5 && WellFormed(t)
  {
    ModelPart0()
  }

  /** Lines 5 to 7 of `Business`, counting from 0. */
  function BusinessPart1(): (t: Template)
    ensures |t| == 3 && WellFormed(t)
  {
    [[Plain("\t\"github.com/cisordeng/" + "beego/orm\"")],
     [Plain("\t\"github.com/cisordeng/" + "beego/xenon\"")],
     []]
  }

  /** Lines 8 to 12 of `Business`, counting from 0. */
  function BusinessPart2(): (t: Template)
    ensures |t| == 5 && WellFormed(t)
  {
    [[Plain("\tmUser \""), Slot(Appname), Plain("/model/account\"")],
     [],
     [Plain(")")],
     [],
     [Plain("type User struct "), Open]]
  }

  /** Lines 13 to 16 of `Business`, counting from 0. */
  function BusinessPart3(): (t: Template)
    ensures |t| == 4 && WellFormed(t)
  {
    [[Plain("\tId int")],
     [Plain("\tName string")],
     [Plain("\tPassword string")],
     [Plain("\tAvatar string")]]
  }

  /** Lines 17 to 22 of `Business`, counting from 0. */
  function BusinessPart4(): (t: Template)
    ensures |t| == 6 && WellFormed(t)
  {
    [[Plain("\tCreatedAt time.Time")],
     [Plain("}")],
     [],
     [Plain("func init() "), Open],
     [Plain("}")],
     []]
  }

  /** Lines 23 to 24 of `Business`, counting from 0. */
  function BusinessPart5(): (t: Template)
    ensures |t| == 2 && WellFormed(t)
  {
    [[Plain("func" + " InitUserFromModel(model" + " *mUser.User) *User "), Open],
     [Plain("\tinstance := new(User)")]]
  }

  /** Lines 25 to 26 of `Business`, counting from 0. */
  function BusinessPart6(): (t: Template)
    ensures |t| == 2 && WellFormed(t)
  {
    [[Plain("\tinstance.Id = model.Id")],
     [Plain("\tinstance.Name =" + " model.Name")]]
  }

  /** Lines 27 to 28 of `Business`, counting from 0. */
  function BusinessPart7(): (t: Template)
    ensures |t| == 2 && WellFormed(t)
  {
    [[Plain("\tinstance.Password =" + " model.Password")],
     [Plain("\tinstance.Avatar =" + " model.Avatar")]]
  }

  /** Lines 29 to 33 of `Business`, counting from 0. */
  function BusinessPart8(): (t: Template)
    ensures |t| == 5 && WellFormed(t)
  {
    [[Plain("\tinstance.CreatedAt =" + " model.CreatedAt")],
     [],
     [Plain("\treturn instance")],
     [Plain("}")],
     []]
  }

  /** Line 34 of `Business`, counting from 0. */
  function BusinessPart9(): (t: Template)
    ensures |t| == 1 && WellFormed(t)
  {
    [[Plain("func NewUser(name" + " string, password" + " string, avatar string)" + " (user *User) "), Open]]
  }

  /** Lines 35 to 37 of `Business`, counting from 0. */
  function BusinessPart10(): (t: Template)
    ensures |t| == 3 && WellFormed(t)
  {
    [[Plain("\tmodel := mUser.User"), Open],
     [Plain("\t\tName: name,")],
     [Plain("\t\tPassword:" + " xenon.EncodeMD5(" + "password),")]]
  }

  /** Lines 38 to 40 of `Business`, counting from 0. */
  function BusinessPart11(): (t: Template)
    ensures |t| == 3 && WellFormed(t)
  {
    [[Plain("\t\tAvatar: avatar,")],
     [Plain("\t}")],
     [Plain("\t_, err :=" + " orm.NewOrm().Insert(&" + "model)")]]
  }

  /** Lines 41 to 43 of `Business`, counting from 0. */
  function BusinessPart12(): (t: Template)
    ensures |t| == 3 && WellFormed(t)
  {
    [[Plain("\txenon.PanicNotNilError(" + "err)")],
     [Plain("\treturn" + " InitUserFromModel(&" + "model)")],
     [Plain("}")]]
  }

  /** `apiBusinessRepository` (cmd/commands/api/apiapp.go:285-303): `business/account/user_repository.go`. */
  function BusinessRepository(): (t: Template)
    ensures WellFormed(t)
  {
    BusinessRepositoryPart0() + BusinessRepositoryPart1() + BusinessRepositoryPart2() + BusinessRepositoryPart3() + BusinessRepositoryPart4() + BusinessRepositoryPart5() + BusinessRepositoryPart6() + BusinessRepositoryPart7()
  }

  /** Lines 0 to 3 of `BusinessRepository`, counting from 0. */
  function BusinessRepositoryPart0(): (t: Template)
    ensures |t| == 4 && WellFormed(t)
  {
    [[Plain("package account")],
     [],
     [Plain("import (")],
     [Plain("\t\"github.com/cisordeng/" + "beego/orm\"")]]
  }

  /** Lines 4 to 7 of `BusinessRepository`, counting from 0. */
  function BusinessRepositoryPart1(): (t: Template)
    ensures |t| == 4 && WellFormed(t)
  {
    [[Plain("\t\"github.com/cisordeng/" + "beego/xenon\"")],
     [],
     [Plain("\tmUser \""), Slot(Appname), Plain("/model/account\"")],
     [Plain(")")]]
  }

  /** Lines 8 to 9 of `BusinessRepository`, counting from 0. */
  function BusinessRepositoryPart2(): (t: Template)
    ensures |t| == 2 && WellFormed(t)
  {
    [[],
     [Plain("func GetUserByName(name" + " string) (user *User)  "), Open]]
  }

  /** Line 10 of `BusinessRepository`, counting from 0. */
  function BusinessRepositoryPart3(): (t: Template)
    ensures |t| == 1 && WellFormed(t)
  {
    [[Plain("\tmodel := mUser.User"), Open, Plain("}")]]
  }

  /** Line 11 of `BusinessRepository`, counting from 0. */
  function BusinessRepositoryPart4(): (t: Template)
    ensures |t| == 1 && WellFormed(t)
  {
    [[Plain("\terr := orm.NewOrm()." + "QueryTable(&mUser.User"), Open, Plain("}).Filter(xenon.Map"), Open]]
  }

  /** Lines 12 to 13 of `BusinessRepository`, counting from 0. */
  function BusinessRepositoryPart5(): (t: Template)
    ensures |t| == 2 && WellFormed(t)
  {
    [[Plain("\t\t\"name\": name,")],
     [Plain("\t}).One(&model)")]]
  }

  /** Line 14 of `BusinessRepository`, counting from 0. */
  function BusinessRepositoryPart6(): (t: Template)
    ensures |t| == 1 && WellFormed(t)
  {
    [[Plain("\txenon.PanicNotNilError(" + "err, \"raise:account:not_" + "exits\", \"\U{7528}\U{6237}\U{4E0D}\U{5B58}\U{5728}\")")]]
  }

  /** Lines 15 to 17 of `BusinessRepository`, counting from 0. */
  function BusinessRepositoryPart7(): (t: Template)
    ensures |t| == 3 && WellFormed(t)
  {
    [[Plain("\tuser =" + " InitUserFromModel(&" + "model)")],
     [Plain("\treturn user")],
     [Plain("}")]]
  }

  /** `apiBusinessEncode` (cmd/commands/api/apiapp.go:305-320): `business/account/encode_user.go`. */
  function BusinessEncode(): (t: Template)
    ensures WellFormed(t)
  {
    BusinessEncodePart0() + BusinessEncodePart1() + BusinessEncodePart2() + BusinessEncodePart3() + BusinessEncodePart4()
  }

  /** Lines 0 to 5 of `BusinessEncode`, counting from 0. */
  function BusinessEncodePart0(): (t: Template)
    ensures |t| == 6 && WellFormed(t)
  {
    [[Plain("package account")],
     [],
     [Plain("import (")],
     [Plain("\t\"github.com/cisordeng/" + "beego/xenon\"")],
     [Plain(")")],
     []]
  }

  /** Lines 6 to 7 of `BusinessEncode`, counting from 0. */
  function BusinessEncodePart1(): (t: Template)
    ensures |t| == 2 && WellFormed(t)
  {
    [[Plain("func EncodeUser(user" + " *User) xenon.Map "), Open],
     [Plain("\tmapUser := xenon.Map"), Open]]
  }

  /** Lines 8 to 10 of `BusinessEncode`, counting from 0. */
  function BusinessEncodePart2(): (t: Template)
    ensures |t| == 3 && WellFormed(t)
  {
    [[Plain("\t\t\"id\": user.Id,")],
     [Plain("\t\t\"name\": user.Name,")],
     [Plain("\t\t\"avatar\": user.Avatar,")]]
  }

  /** Lines 11 to 13 of `BusinessEncode`, counting from 0. */
  function BusinessEncodePart3(): (t: Template)
    ensures |t| == 3 && WellFormed(t)
  {
    [[Plain("\t\t\"created_at\":" + " user.CreatedAt.Format(\"" + "2006-01-02 15:04:05\"),")],
     [Plain("\t}")],
     [Plain("\treturn mapUser")]]
  }

  /** Line 14 of `BusinessEncode`, counting from 0. */
  function BusinessEncodePart4(): (t: Template)
    ensures |t| == 1 && WellFormed(t)
  {
    [[Plain("}")]]
  }

  /** `apiBusinessAuth` (cmd/commands/api/apiapp.go:322-346): `business/account/auth_user_service.go`. */
  function BusinessAuth(): (t: Template)
    ensures WellFormed(t)
  {
    BusinessAuthPart0() + BusinessAuthPart1() + BusinessAuthPart2() + BusinessAuthPart3() + BusinessAuthPart4() + BusinessAuthPart5() + BusinessAuthPart6() + BusinessAuthPart7() + BusinessAuthPart8()
  }

  /** Lines 0 to 4 of `BusinessAuth`, counting from 0. */
  function BusinessAuthPart0(): (t: Template)
    ensures |t| == 5 && WellFormed(t)
  {
    [[Plain("package account")],
     [],
     [Plain("import (")],
     [Plain("\t\"encoding/json\"")],
     []]
  }

  /** Lines 5 to 8 of `BusinessAuth`, counting from 0. */
  function BusinessAuthPart1(): (t: Template)
    ensures |t| == 4 && WellFormed(t)
  {
    [[Plain("\t\"github.com/cisordeng/" + "beego\"")],
     [Plain("\t\"github.com/cisordeng/" + "beego/xenon\"")],
     [Plain(")")],
     []]
  }

  /** Lines 9 to 10 of `BusinessAuth`, counting from 0. */
  function BusinessAuthPart2(): (t: Template)
    ensures |t| == 2 && WellFormed(t)
  {
    [[Plain("func AuthUser(name" + " string, password" + " string) string "), Open],
     [Plain("\tuser :=" + " GetUserByName(name)")]]
  }

  /** Lines 11 to 12 of `BusinessAuth`, counting from 0. */
  function BusinessAuthPart3(): (t: Template)
    ensures |t| == 2 && WellFormed(t)
  {
    [[Plain("\tuserMap :=" + " EncodeUser(user)")],
     [Plain("\tif user.Password ==" + " xenon.EncodeMD5(" + "password) "), Open]]
  }

  /** Lines 13 to 14 of `BusinessAuth`, counting from 0. */
  function BusinessAuthPart4(): (t: Template)
    ensures |t| == 2 && WellFormed(t)
  {
    [[Plain("\t\tdecodedByteToken, err" + " :=" + " json.Marshal(userMap)")],
     [Plain("\t\txenon." + "PanicNotNilError(err)")]]
  }

  /** Lines 15 to 16 of `BusinessAuth`, counting from 0. */
  function BusinessAuthPart5(): (t: Template)
    ensures |t| == 2 && WellFormed(t)
  {
    [[Plain("\t\tdecodedToken :=" + " string(" + "decodedByteToken)")],
     []]
  }

  /** Line 17 of `BusinessAuth`, counting from 0. */
  function BusinessAuthPart6(): (t: Template)
    ensures |t| == 1 && WellFormed(t)
  {
    [[Plain("\t\tcommonKey :=" + " beego.AppConfig.String(" + "\"api::aesCommonKey\")")]]
  }

  /** Line 18 of `BusinessAuth`, counting from 0. */
  function BusinessAuthPart7(): (t: Template)
    ensures |t| == 1 && WellFormed(t)
  {
    [[Plain("\t\tsid, err := xenon." + "EncodeAesWithCommonKey(" + "decodedToken, commonKey)")]]
  }

  /** Lines 19 to 23 of `BusinessAuth`, counting from 0. */
  function BusinessAuthPart8(): (t: Template)
    ensures |t| == 5 && WellFormed(t)
  {
    [[Plain("\t\txenon." + "PanicNotNilError(err)")],
     [Plain("\t\treturn sid")],
     [Plain("\t}")],
     [Plain("\treturn \"\"")],
     [Plain("}")]]
  }

  /** `apiBusinessInit` (cmd/commands/api/apiapp.go:348-352): `business/init.go`. */
  function BusinessInit(): (t: Template)
    ensures WellFormed(t)
  {
    BusinessInitPart0()
  }

  /** Lines 0 to 3 of `BusinessInit`, counting from 0. */
  function BusinessInitPart0(): (t: Template)
    ensures |t| == 4 && WellFormed(t)
  {
    [[Plain("package business")],
     [],
     [Plain("func init() "), Open],
     [Plain("}")]]
  }
}
