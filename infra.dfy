/**
 * Package `infra` of module-app: `DatabaseRepository`, a stub implementation
 * of the user repository. The struct has no fields, so its methods depend on
 * their arguments alone.
 */
module Infra {
  import opened Wrappers
  import opened User

  /** The id of the one user the stub knows. */
  const KnownId: string := "1"

  /** `DatabaseRepository.Save`: storing a user never fails. */
  function Save(username: string): (err: Option<string>)
    ensures err == None
  {
    None
  }

  /**
   * `DatabaseRepository.Find`: the lookup succeeds exactly for id "1", with
   * "found user"; every other id gives an empty name and "user not found".
   */
  function Find(id: string): (r: FindResult)
    ensures r.err == None <==> id == KnownId
    ensures r.err == None ==> r.user == "found user"
    ensures r.err != None ==> r.user == "" && r.err == Some("user not found")
  {
    if id == KnownId then FindResult("found user", None)
    else FindResult("", Some("user not found"))
  }

  /** `NewRepository`: the database stub as a `Repository`. */
  function NewRepository(): (r: Repository)
    ensures forall username :: r.save(username) == None
    ensures forall id :: r.find(id).err == None <==> id == KnownId
    ensures forall username :: r.save(username) == Save(username)
    ensures forall id :: r.find(id) == Find(id)
  {
    Repository(Save, Find)
  }
}
