/**
 * Package `user` of module-app: the `Repository` interface a service stores
 * users through, and the service that forwards to it.
 */
module User {
  import opened Wrappers

  /** What `Find` returns: Go's `(string, error)` pair, with the error nil as `None`. */
  datatype FindResult = FindResult(user: string, err: Option<string>)

  /**
   * The `Repository` interface: one implementation is the pair of its two
   * methods. `save` returns the error of `Save`, `find` the pair of `Find`.
   */
  datatype Repository = Repository(save: string -> Option<string>, find: string -> FindResult)

  /** The unexported `service` struct; its only state is the repository it was built with. */
  datatype Service = Service(repository: Repository) {

    /** `SaveUser`: hands the username to the repository unchanged. */
    function SaveUser(username: string): Option<string>
    {
      repository.save(username)
    }

    /** `User`: looks the id up in the repository. */
    function User(id: string): FindResult
    {
      repository.find(id)
    }
  }

  /** `NewService`: a service over `repository`. */
  function NewService(repository: Repository): Service
  {
    Service(repository)
  }

  /**
   * A service adds nothing of its own: for every repository, every username
   * and every id, `SaveUser` returns what the repository's `Save` returns for
   * that same username, and `User` the value and error of its `Find`.
   */
  lemma ServiceForwards(repository: Repository, username: string, id: string)
    ensures NewService(repository).repository == repository
    ensures NewService(repository).SaveUser(username) == repository.save(username)
    ensures NewService(repository).User(id) == repository.find(id)
  {
  }
}
