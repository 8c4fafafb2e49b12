/**
 * `runApp` of module-app: the invoke target that saves one user and reads
 * user "1" back through the service that the module wiring builds from the
 * database repository.
 */
module ModuleApp {
  import opened Wrappers
  import opened User
  import Infra

  /** How `runApp` ends: it logs the user it read, or `log.Fatalf` ends the process. */
  datatype RunOutcome = Retrieved(user: string) | Fatal(message: string)

  /** `runApp`: save "example user", then look up id "1". */
  function RunApp(service: Service): RunOutcome
  {
    match service.SaveUser("example user")
    case Some(err) => Fatal("Error saving user: " + err)
    case None =>
      var r := service.User("1");
      match r.err
      case Some(err) => Fatal("Error getting user: " + err)
      case None => Retrieved(r.user)
  }

  /**
   * Over any repository, `runApp` gets through exactly when saving
   * "example user" and finding "1" both succeed, and then it reports the
   * user the repository found.
   */
  lemma RunAppSucceedsIff(repository: Repository)
    ensures RunApp(NewService(repository)).Retrieved? <==>
      repository.save("example user") == None && repository.find("1").err == None
    ensures RunApp(NewService(repository)).Retrieved? ==>
      RunApp(NewService(repository)).user == repository.find("1").user
  {
  }

  /** With the module's wiring, `runApp` always takes the happy path and reads "found user". */
  lemma RunAppWithDatabase()
    ensures RunApp(NewService(Infra.NewRepository())) == Retrieved("found user")
  {
  }

  /**
   * Through the wired service, saving succeeds for every username, and
   * looking a user up succeeds for id "1" only, with "found user".
   */
  lemma WiredServiceBehaviour(username: string, id: string)
    ensures NewService(Infra.NewRepository()).SaveUser(username) == None
    ensures NewService(Infra.NewRepository()).User(id).err == None <==> id == "1"
    ensures NewService(Infra.NewRepository()).User("1") == FindResult("found user", None)
    ensures id != "1" ==> NewService(Infra.NewRepository()).User(id) == FindResult("", Some("user not found"))
  {
  }
}
